/** Playback: the per-tick interpolation advanceAnimation performs between two keyframes
    (segment lookup, smoothstep easing, linear and shortest-arc interpolation, the look-ahead
    blend toward the keyframe after next) and the way a tick moves the animation state. */
module Playback {
  import opened Geometry
  import opened Angles
  import opened Keyframes

  /** segDuration: kfB.time - kfA.time, replaced by 0.001 when not positive. */
  function SegDuration(kfA: Keyframe, kfB: Keyframe): (d: real)
    ensures d > 0.0
    ensures kfB.time - kfA.time > 0.0 ==> d == kfB.time - kfA.time
    ensures kfB.time - kfA.time <= 0.0 ==> d == 0.001
  {
    var d := kfB.time - kfA.time;
    if d <= 0.0 then 0.001 else d
  }

  /** localT: the elapsed fraction of the segment, clamped to [0, 1]; 0 up to the segment's
      start time and 1 from its end onward. */
  function LocalT(elapsed: real, kfA: Keyframe, kfB: Keyframe): (u: real)
    ensures 0.0 <= u <= 1.0
    ensures elapsed <= kfA.time ==> u == 0.0
    ensures elapsed >= kfA.time + SegDuration(kfA, kfB) ==> u == 1.0
  {
    var d := SegDuration(kfA, kfB);
    var raw := (elapsed - kfA.time) / d;
    RatioBounds(elapsed - kfA.time, d);
    Clamp(raw, 0.0, 1.0)
  }

  lemma RatioBounds(n: real, d: real)
    requires d > 0.0
    ensures n <= 0.0 ==> n / d <= 0.0
    ensures n >= d ==> n / d >= 1.0
  {
  }

  /** The threshold of t above which the look-at point pans toward the keyframe after next. */
  const BlendStart: real := 0.8

  /** The look-ahead blend: (t - 0.8) / 0.2 when a third keyframe exists and t > 0.8,
      otherwise no blend. */
  function Blend(hasNext: bool, t: real): (blend: real)
    requires 0.0 <= t <= 1.0
    ensures 0.0 <= blend <= 1.0
    ensures blend > 0.0 <==> hasNext && t > BlendStart
    ensures hasNext && t > BlendStart ==> blend == (t - BlendStart) / 0.2
    ensures hasNext && t == 1.0 ==> blend == 1.0
  {
    if hasNext && t > BlendStart then (t - BlendStart) / 0.2 else 0.0
  }

  /** What one tick of advanceAnimation computes before handing it to moveCamera. */
  datatype Frame = Frame(
    localT: real, t: real,
    x: real, y: real, groundZ: real, z: real, yaw: real, pitch: real,
    lookX: real, lookY: real, lookGz: real, blend: real)

  /** The frame for segment idx at the given elapsed time: position, altitude, ground and
      pitch interpolated linearly with the eased parameter, yaw along the shortest arc, and
      the look-at point at kfB or, in the segment's last fifth with a kfC, between kfB and kfC. */
  function FrameAt(kfs: seq<Keyframe>, idx: nat, elapsed: real): (f: Frame)
    requires idx + 1 < |kfs|
    ensures 0.0 <= f.localT <= 1.0 && 0.0 <= f.t <= 1.0
    ensures 0.0 <= f.blend <= 1.0
    ensures f.blend > 0.0 <==> idx + 2 < |kfs| && f.t > BlendStart
  {
    var kfA, kfB := kfs[idx], kfs[idx + 1];
    var hasNext := idx + 2 < |kfs|;
    var kfC := if hasNext then kfs[idx + 2] else kfB;
    var localT := LocalT(elapsed, kfA, kfB);
    var t := Smoothstep(localT);
    var blend := Blend(hasNext, t);
    var blending := hasNext && t > BlendStart;
    Frame(localT, t,
          Lerp(kfA.x, kfB.x, t), Lerp(kfA.y, kfB.y, t),
          Lerp(kfA.groundZ, kfB.groundZ, t), Lerp(kfA.z, kfB.z, t),
          LerpAngleOf(kfA.yaw, kfB.yaw, t), Lerp(kfA.pitch, kfB.pitch, t),
          if blending then Lerp(kfB.x, kfC.x, blend) else kfB.x,
          if blending then Lerp(kfB.y, kfC.y, blend) else kfB.y,
          if blending then Lerp(kfB.groundZ, kfC.groundZ, blend) else kfB.groundZ,
          blend)
  }

  /** The camera sits at kfA up to the segment's start time and at kfB once the segment's
      duration has elapsed; in between each coordinate stays between its two keyframe values. */
  lemma FrameEndpoints(kfs: seq<Keyframe>, idx: nat, elapsed: real)
    requires idx + 1 < |kfs|
    ensures var f, a, b := FrameAt(kfs, idx, elapsed), kfs[idx], kfs[idx + 1];
            (elapsed <= a.time ==> f.x == a.x && f.y == a.y && f.z == a.z && f.groundZ == a.groundZ &&
                                   f.pitch == a.pitch) &&
            (elapsed >= a.time + SegDuration(a, b) ==>
               f.x == b.x && f.y == b.y && f.z == b.z && f.groundZ == b.groundZ && f.pitch == b.pitch) &&
            QMin(a.x, b.x) <= f.x <= QMax(a.x, b.x) && QMin(a.y, b.y) <= f.y <= QMax(a.y, b.y) &&
            QMin(a.z, b.z) <= f.z <= QMax(a.z, b.z)
  {
  }

  /** Without a third keyframe, or before t passes 0.8, the camera looks at kfB; while
      blending the look-at point lies between kfB and kfC, and once the segment's duration
      has elapsed the pan has reached kfC. */
  lemma FrameLookTarget(kfs: seq<Keyframe>, idx: nat, elapsed: real)
    requires idx + 1 < |kfs|
    ensures var f, b := FrameAt(kfs, idx, elapsed), kfs[idx + 1];
            (f.blend == 0.0 ==> f.lookX == b.x && f.lookY == b.y && f.lookGz == b.groundZ) &&
            (f.blend > 0.0 ==> var c := kfs[idx + 2];
               QMin(b.x, c.x) <= f.lookX <= QMax(b.x, c.x) && QMin(b.y, c.y) <= f.lookY <= QMax(b.y, c.y) &&
               QMin(b.groundZ, c.groundZ) <= f.lookGz <= QMax(b.groundZ, c.groundZ)) &&
            (idx + 2 < |kfs| && elapsed >= kfs[idx].time + SegDuration(kfs[idx], b) ==>
               var c := kfs[idx + 2];
               f.lookX == c.x && f.lookY == c.y && f.lookGz == c.groundZ)
  {
  }

  /** mAnimIndex and mAnimElapsed. */
  datatype PlayState = PlayState(index: nat, elapsed: real)

  /** The early exit of advanceAnimation: no keyframes, or the last segment has been left. */
  predicate Finished(kfs: seq<Keyframe>, s: PlayState)
  {
    |kfs| == 0 || s.index >= |kfs| - 1
  }

  /** The state after a tick and the frame the tick showed, if any. */
  datatype Tick = Tick(state: PlayState, frame: Option<Frame>)

  /** The state after one tick: unchanged once finished; otherwise elapsed grows by dt and the
      index moves on once elapsed reaches kfB. */
  function Advance(kfs: seq<Keyframe>, s: PlayState, dt: real): (r: PlayState)
    ensures Finished(kfs, s) ==> r == s
    ensures !Finished(kfs, s) ==> r.elapsed == s.elapsed + dt
    ensures !Finished(kfs, s) ==> (r.index == s.index + 1 <==> s.elapsed + dt >= kfs[s.index + 1].time)
    ensures r.index == s.index || r.index == s.index + 1
    ensures !Finished(kfs, s) ==> r.index <= |kfs| - 1
  {
    if Finished(kfs, s) then s
    else
      var elapsed := s.elapsed + dt;
      PlayState(if elapsed >= kfs[s.index + 1].time then s.index + 1 else s.index, elapsed)
  }

  /** One tick: the frame, computed at the elapsed time before the tick, and the new state. */
  function Step(kfs: seq<Keyframe>, s: PlayState, dt: real): (r: Tick)
    ensures r.state == Advance(kfs, s, dt)
    ensures r.frame.Some? <==> !Finished(kfs, s)
    ensures r.frame.Some? ==> r.frame.value == FrameAt(kfs, s.index, s.elapsed)
  {
    Tick(Advance(kfs, s, dt), if Finished(kfs, s) then None else Some(FrameAt(kfs, s.index, s.elapsed)))
  }

  /** n ticks. */
  function Run(kfs: seq<Keyframe>, s: PlayState, dt: real, n: nat): PlayState
    decreases n
  {
    if n == 0 then s else Run(kfs, Advance(kfs, s, dt), dt, n - 1)
  }

  /** Ticks left in the current segment before the index moves on. */
  function TicksLeft(kfs: seq<Keyframe>, s: PlayState, dt: real): nat
    requires dt > 0.0
  {
    if Finished(kfs, s) then 0
    else
      var gap := kfs[s.index + 1].time - s.elapsed;
      if gap <= 0.0 then 0 else var n := Ceil(gap / dt); if n < 0 then 0 else n
  }

  /** With a positive time step every animation finishes after finitely many ticks. */
  lemma {:induction false} AnimationFinishes(kfs: seq<Keyframe>, s: PlayState, dt: real)
    requires dt > 0.0
    ensures exists n: nat :: Finished(kfs, Run(kfs, s, dt, n))
    decreases |kfs| - s.index, TicksLeft(kfs, s, dt)
  {
    if Finished(kfs, s) {
      assert Run(kfs, s, dt, 0) == s;
    } else {
      var s' := Advance(kfs, s, dt);
      if s'.index == s.index {
        TicksLeftShrinks(kfs, s, dt);
      }
      AnimationFinishes(kfs, s', dt);
      var n: nat :| Finished(kfs, Run(kfs, s', dt, n));
      assert Run(kfs, s, dt, n + 1) == Run(kfs, s', dt, n);
    }
  }

  lemma TicksLeftShrinks(kfs: seq<Keyframe>, s: PlayState, dt: real)
    requires dt > 0.0 && !Finished(kfs, s)
    requires Advance(kfs, s, dt).index == s.index
    ensures TicksLeft(kfs, Advance(kfs, s, dt), dt) < TicksLeft(kfs, s, dt)
  {
    var s' := Advance(kfs, s, dt);
    var gap := kfs[s.index + 1].time - s.elapsed;
    assert s.elapsed + dt < kfs[s.index + 1].time;
    assert gap > dt;
    var gap' := gap - dt;
    assert gap' == kfs[s'.index + 1].time - s'.elapsed;
    assert gap' / dt == gap / dt - 1.0 by {
      assert dt / dt == 1.0;
      assert (gap - dt) / dt == gap / dt - dt / dt;
    }
    RatioBounds(gap, dt);
    assert Ceil(gap' / dt) == Ceil(gap / dt) - 1;
  }

  /** With a zero time step (more than 1000 frames per second give a 0 ms interval), an
      animation whose elapsed time has not reached the next keyframe never moves. */
  lemma {:induction false} ZeroStepStalls(kfs: seq<Keyframe>, s: PlayState, n: nat)
    requires !Finished(kfs, s) && s.elapsed < kfs[s.index + 1].time
    ensures Run(kfs, s, 0.0, n) == s
  {
    if n > 0 {
      assert Advance(kfs, s, 0.0) == s;
      ZeroStepStalls(kfs, s, n - 1);
    }
  }
}
