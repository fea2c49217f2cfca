# FlyThroughCore trajectory engine in Dafny

This project models the trajectory engine of the Flythrough Pro QGIS plugin, the
`FlyThroughCore` class. The engine turns a path into a camera flight over a terrain model in
four stages:

- **Path preprocessing.** `smoothPath` runs a 3-point moving average. `densifyPath` splits
  long segments into equal steps.
- **Keyframe synthesis.** `generateKeyframes` emits one timestamped keyframe per smoothed
  vertex. Each keyframe gets an altitude chosen by the altitude mode, a heading from
  `calculateBearing`, and a banking roll.
- **Playback.** `setupAnimation` resets the animation cursor. Each `advanceAnimation` tick
  interpolates between two keyframes, with smoothstep easing, shortest-arc yaw and a
  look-ahead blend. It then moves the cursor.
- **Pose arithmetic.** `moveCamera` turns an interpolated camera state into the look-at point,
  distance, pitch and yaw handed to the 3D camera controller.

Modules, one file each:

- `Geometry`: points, the Qt/C helpers (`qMin`, `qMax`, clamps, truncation, `ceil`), and the
  external collaborators. Trigonometry, `sqrt(a*a + b*b)`, ellipsoidal distance and raster
  sampling are function values. Their types carry only the facts the engine relies on.
- `Angles`: `fmod`, the angle-normalising loops, `calculateBearing`, `lerpAngle` and smoothstep.
- `Preprocess`: `densifyPath` and `smoothPath`. Each is a method with loops, proved against a
  specification function.
- `Keyframes`: the `Keyframe` and `FlythroughParams` records, altitude-mode resolution, the
  peak-elevation scan, and the keyframe sequence as a function of the input path.
- `Playback`: the per-tick frame (`FrameAt`) and the cursor update (`Advance`) as functions,
  with termination of the animation.
- `Pose`: the arithmetic of `moveCamera`, split into its stages.
- `Core`: the `FlyThroughCore` class. It holds the object's fields and the methods that update
  them: `GenerateKeyframes`, `SetupAnimation` and `AdvanceAnimation`.

Two behaviours of the code, as written, that the model states outright:

- The underground correction only shortens the look vector under the conditions listed for
  `Pose.CorrectionOf`. The look-at point is not kept above the terrain in general.
- A positive pitch strictly between 0 and 90 degrees raises the look-at point above the camera.
  The default is 65, which the header documents as "positive = down". With such a pitch the
  underground correction never applies, and the orbit pitch handed to the controller is
  clamped to 0 whenever the camera was not lifted.

## Model

| member | source | states |
|---|---|---|
| Geometry.Clamp | src/flythrough_core.cpp:608 | The clamp idiom qMax(lo, qMin(hi, v)) lands in [lo, hi]. It is v inside the range and the nearer bound outside it. |
| Geometry.ElevationAt | src/flythrough_core.cpp:494-536 | getElevationAtPoint gives 0 without a DEM layer or when the raster sample fails, and the sampled value otherwise. |
| Angles.Fmod360 | src/flythrough_core.cpp:795 | fmod(x, 360) keeps the sign of x and has magnitude below 360. It differs from x by whole turns and is x itself for \|x\| < 360. |
| Angles.Wrap180 | src/flythrough_core.cpp:441-444 | The normalised angle lies in [-180, 180] and is a whole number of turns from the input. An angle already in range is unchanged. |
| Angles.NormalizeAngle | src/flythrough_core.cpp:441-444 | The two while loops leave exactly Wrap180 of the input. |
| Angles.CalculateBearing | src/flythrough_core.cpp:790-796 | The bearing is in [0, 360) and differs from the atan2 heading by whole turns. |
| Angles.BearingIsFmod | src/flythrough_core.cpp:795 | The bearing equals fmod(heading + 360, 360), as calculateBearing computes it. |
| Angles.LerpAngle | src/flythrough_core.cpp:806-813 | lerpAngle returns fmod(a + Wrap180(b - a) * t, 360), a value strictly between -360 and 360. |
| Angles.LerpAngleShortestArc | src/flythrough_core.cpp:806-813 | For t in [0, 1] the swept arc is at most 180 degrees. The result is whole turns away from a + diff * t, from a at t = 0 and from b at t = 1. |
| Angles.LerpAngleExamples | src/flythrough_core.cpp:806-813 | lerpAngle(350, 10, 0.5) is 0, across north. lerpAngle(10, 340, 1) is -20, so results are not brought into [0, 360). |
| Angles.Smoothstep | src/flythrough_core.cpp:611 | The eased parameter stays in [0, 1] for a parameter in [0, 1]. It is 0 at 0 and 1 at 1. |
| Angles.SmoothstepMonotone | src/flythrough_core.cpp:611 | Smoothstep never decreases on [0, 1]. |
| Preprocess.SegmentCountIsCeil | src/flythrough_core.cpp:318-324 | The points a split segment contributes number exactly ceil(dist / interval). |
| Preprocess.SegmentPoints | src/flythrough_core.cpp:318-330 | A segment contributes SegmentCount points, the last of them p2: p1 + dx * numSegments lands on p2 exactly. |
| Preprocess.SegmentPointsEvenlySpaced | src/flythrough_core.cpp:324-330 | The points of a split segment are p1 + j * (p2 - p1) / n, so consecutive points are equally spaced. |
| Preprocess.DensifyPath | src/flythrough_core.cpp:305-333 | The method's result is exactly Densify of its input. |
| Preprocess.AppendSegment | src/flythrough_core.cpp:315-330 | One pass of the outer loop appends exactly the segment's points. |
| Preprocess.AppendSteps | src/flythrough_core.cpp:327-329 | The inner loop appends p1 + dx * j and p1 + dy * j for j = 1..numSegments. |
| Preprocess.DensifyKeepsVertices | src/flythrough_core.cpp:305-333 | Every input vertex occurs in the densified path. |
| Preprocess.DensifyKeepsOrder | src/flythrough_core.cpp:305-333 | Input vertices occur in order: vertex k appears before vertex k + 1. |
| Preprocess.DensifyEndpoints | src/flythrough_core.cpp:305-333 | The densified path starts with the first vertex and ends with the last. |
| Preprocess.SmoothPassAt | src/flythrough_core.cpp:343-355 | One pass keeps the first and last points, and each interior point becomes the average of its two neighbours and itself. |
| Preprocess.Smooth | src/flythrough_core.cpp:335-359 | Smoothing never changes the number of points. |
| Preprocess.SmoothPath | src/flythrough_core.cpp:335-359 | The method's result is exactly Smooth of its input: unchanged for iterations <= 0 or fewer than 3 points, otherwise that many passes. |
| Preprocess.SmoothOnce | src/flythrough_core.cpp:344-356 | One outer iteration builds exactly SmoothPass of the previous list. |
| Preprocess.SmoothPinsEndpoints | src/flythrough_core.cpp:343-357 | The first and last points survive any number of passes. |
| Preprocess.SmoothInterior | src/flythrough_core.cpp:347-353 | Each interior point is the 3-point average of the previous pass, not of the input. |
| Preprocess.SmoothStaysInBox | src/flythrough_core.cpp:335-359 | A path inside an axis-aligned box stays inside it after smoothing. |
| Preprocess.SmoothFixesEvenSteps | src/flythrough_core.cpp:335-359 | A path of equal steps along a line is a fixed point of smoothing. |
| Keyframes.Contains | src/flythrough_core.cpp:391 | QString::contains holds exactly when the substring occurs at some index. |
| Keyframes.ResolveMode | src/flythrough_core.cpp:391-402 | The mode is safe-path iff the string contains "Safe Path". It is fixed iff the string contains "Fixed" but not "Safe Path". Otherwise it is terrain-relative. |
| Keyframes.DefaultsSelectSafePath | src/flythrough_core.h:40-46 | The default parameters select the safe-path mode, and smoothing with them is the identity. |
| Keyframes.FixedStringSelectsFixed | src/flythrough_core.h:40 | "Fixed Altitude (AMSL)" selects the fixed mode. |
| Keyframes.PeakSample | src/flythrough_core.cpp:368-377 | The running maximum is at least the -9999 sentinel and every sample. It is either the sentinel or one of the samples. |
| Keyframes.SafeMaxElevation | src/flythrough_core.cpp:368-381 | maxElev is at least every sample. It is the largest sample whenever some sample rises above the -9999 sentinel, negative ones included, and 0 when none does. |
| Keyframes.BelowSeaLevelPeak | src/flythrough_core.cpp:368-381 | Samples -400 and -350 give a peak of -350, not 0. A scan that never rises above the sentinel gives 0. |
| Keyframes.PathMaxElevation | src/flythrough_core.cpp:368-381 | No point of the path densified every 2 units samples above maxElev. When one of those points samples above -9999, maxElev is the sample of one of them. When none does, it is 0. |
| Keyframes.TargetZ | src/flythrough_core.cpp:414-423 | Fixed mode gives height * exaggeration. Terrain-relative mode, with height and exaggeration not negative, is never below the scaled ground. |
| Keyframes.SegmentDuration | src/flythrough_core.cpp:478-479 | A segment takes no negative time at a positive speed. |
| Keyframes.SegmentDurationCovers | src/flythrough_core.cpp:478-479 | At a non-zero speed, duration times speed is the segment's length. |
| Keyframes.SafePathZClears | src/flythrough_core.cpp:391-392 | With height and exaggeration not negative, the safe-path altitude is at least the scaled terrain of any point no higher than the peak. |
| Keyframes.YawAt | src/flythrough_core.cpp:428-433 | Every heading is in [0, 360). |
| Keyframes.TurnAngle | src/flythrough_core.cpp:437-444 | The turn at an interior vertex is in [-180, 180]. |
| Keyframes.BankRoll | src/flythrough_core.cpp:446-448 | The roll is in [-45, 45]. It is exactly -turn * factor inside the clamp, and with a non-negative factor it never leans into the turn. |
| Keyframes.RollAt | src/flythrough_core.cpp:435-449 | The roll of any vertex is within 45 degrees either way. |
| Keyframes.KeyframeSeq | src/flythrough_core.cpp:406-484 | There is one keyframe per vertex, the first at time 0. Every yaw is in [0, 360) and every roll within 45 degrees. |
| Keyframes.Keyframes | src/flythrough_core.cpp:361-484 | generateKeyframes emits as many keyframes as input vertices. |
| Keyframes.TimeAtMonotone | src/flythrough_core.cpp:476-481 | With a positive speed, the accumulated time never decreases from one vertex to a later one. |
| Keyframes.KeyframeTimeStep | src/flythrough_core.cpp:476-481 | Consecutive keyframe times differ by the segment's distance divided by the speed. |
| Keyframes.KeyframePlacement | src/flythrough_core.cpp:452-460 | Every keyframe sits on its vertex with the configured pitch. With a positive speed its time is not negative. |
| Keyframes.KeyframeTimesNonDecreasing | src/flythrough_core.cpp:476-481 | With a positive speed, keyframe times never decrease. |
| Keyframes.KeyframeAltitudes | src/flythrough_core.cpp:411-425 | groundZ is the scaled elevation. z is (peak + height) * exaggeration in safe-path mode, height * exaggeration in fixed mode, and groundZ + height * exaggeration otherwise. |
| Keyframes.VertexBelowPeak | src/flythrough_core.cpp:368-377 | No vertex of the path lies above the scanned peak elevation. |
| Keyframes.SafePathClearsTerrain | src/flythrough_core.cpp:366-392 | In safe-path mode, with height and exaggeration not negative, every keyframe is at or above the terrain under every keyframe. |
| Keyframes.KeyframeHeadings | src/flythrough_core.cpp:428-433 | The last keyframe repeats the previous yaw. Every other keyframe heads for the next vertex. |
| Keyframes.KeyframeBanking | src/flythrough_core.cpp:434-449 | The roll is 0 unless banking is on and the vertex is interior. There it is the clamped -turn * bankingFactor. |
| Geometry.Lerp | src/flythrough_core.cpp:614-617 | For t in [0, 1] the interpolated value lies between the endpoints. It is a at 0 and b at 1. |
| Playback.SegDuration | src/flythrough_core.cpp:603-605 | The segment duration is positive. It is kfB.time - kfA.time whenever that is positive, and 0.001 otherwise. |
| Playback.LocalT | src/flythrough_core.cpp:607-608 | localT is in [0, 1]. It is 0 up to kfA's time and 1 from the end of the segment on. |
| Playback.Blend | src/flythrough_core.cpp:625-626 | The blend is in [0, 1], and positive exactly when there is a next keyframe and t > 0.8. It is then (t - 0.8) / 0.2, reaching 1 at t = 1. |
| Playback.FrameAt | src/flythrough_core.cpp:594-635 | The frame's localT, t and blend are in [0, 1]. The blend is positive iff a third keyframe exists and t > 0.8. |
| Playback.FrameEndpoints | src/flythrough_core.cpp:607-620 | The camera is at kfA up to the segment's start and at kfB once the segment has elapsed. In between, x, y and z lie between the two keyframes. |
| Playback.FrameLookTarget | src/flythrough_core.cpp:623-635 | Without blending the camera looks at kfB. While blending, the look-at point lies between kfB and kfC. With a kfC, once the segment's duration has elapsed the look-at point is kfC. |
| Playback.Advance | src/flythrough_core.cpp:589-642 | A finished animation keeps its state, so repeated ticks change nothing. Otherwise elapsed grows by dt, and the index grows by 1 exactly when the new elapsed time reaches kfB's time. The index never passes the last keyframe. |
| Playback.Step | src/flythrough_core.cpp:589-642 | A tick shows a frame exactly when the animation is not finished. That frame is FrameAt of the cursor before the tick, and the new state is Advance. |
| Playback.AnimationFinishes | src/flythrough_core.cpp:589-642 | With a positive time step, every animation finishes after finitely many ticks. |
| Playback.ZeroStepStalls | src/flythrough_core.cpp:553-642 | With a zero time step, an animation that has not reached its next keyframe never moves. |
| Pose.LookAheadOf | src/flythrough_core.cpp:674-694 | Beyond 1 unit the scale is min(1, lookAhead / rawDist). The look vector is the target offset times that scale, and aheadGz is groundZ + (lookGz - groundZ) * scale. Within 1 unit the look vector is lookAhead along the heading over the camera's ground. With a non-negative look-ahead the scale is in [0, 1], and below 1 it stretches rawDist to exactly lookAhead. aheadGz lies between the two grounds. |
| Pose.LookVector | src/flythrough_core.cpp:674-694 | The step computes exactly LookAheadOf: scale, look vector and aheadGz. |
| Pose.GroundAt | src/flythrough_core.cpp:698-705 | The ground at the look-at point is the higher of aheadGz and, with a DEM, the sample there. |
| Pose.SampleLookGround | src/flythrough_core.cpp:698-705 | The step computes exactly GroundAt. |
| Pose.CorrectionOf | src/flythrough_core.cpp:707-726 | The look vector shrinks iff the pitched ray ends below the ground, the camera is above it, \|pitch\| > 1, the reach exceeds 0.1 and reqHorizM = vertDiff / tan(\|pitch\|) is shorter. Then the reach is reqHorizM, the shrink is reqHorizM / horizontal and below 1, and the look-at point is at the ground height. Otherwise nothing shrinks and the look-at height is the pitched ray's end. |
| Pose.CorrectUnderground | src/flythrough_core.cpp:707-726 | The step computes exactly CorrectionOf. |
| Pose.OrbitOf | src/flythrough_core.cpp:735-750 | camZ is lifted to groundZ + 10 when below groundZ + 1. dist is the length of (horizM, camZ - finalZ), or camHeight when that is below 1. The pitch is atan2(camZ - finalZ, horizM) clamped to [0, 180], and 0 when horizM < 0.001 or the look-at point is above the camera. The yaw is fmod(360 - bearing of the look vector, 360), in [0, 360) and minus that bearing up to whole turns. |
| Pose.OrbitParams | src/flythrough_core.cpp:735-750 | The step computes exactly OrbitOf. |
| Pose.PoseOf | src/flythrough_core.cpp:669-750 | The pose is the composition of the four stages. Its distance is at least 1 or camHeight, the pitch is in [0, 180] and the yaw in [0, 360). |
| Pose.MoveCamera | src/flythrough_core.cpp:669-750 | moveCamera's arithmetic yields exactly PoseOf of its arguments. |
| Pose.CorrectedLookAt | src/flythrough_core.cpp:698-733 | After a correction the look-at point is on the ground height found at the uncorrected point, below the camera and not below the DEM sample there. It lies at the look vector scaled by the shrink factor. |
| Pose.PositivePitchLooksUp | src/flythrough_core.cpp:707-750 | A pitch in (0, 90) with a non-zero look vector never triggers the correction, and puts the look-at point above the camera. Unless the camera was lifted, the orbit pitch is then clamped to 0. |
| Pose.RaisedLookAt | src/flythrough_core.cpp:710-712 | With a pitch strictly between 0 and 90 degrees, the pitched look-at height is above the camera. |
| Core.IntervalMs | src/flythrough_core.cpp:553 | 1000 / fps truncates: for positive fps the interval is the largest whole number of ms that fits fps times into a second. It is 0 exactly when \|fps\| > 1000. |
| Core.FrameDt | src/flythrough_core.cpp:554 | The time step is positive exactly when 0 < fps <= 1000. |
| Core.DefaultFrameRate | src/flythrough_core.h:51 | The default 30 fps give a 33 ms interval and a 0.033 s step. |
| Core.FlyThroughCore.constructor | src/flythrough_core.h:71-86 | Every field starts at its declared initial value. |
| Core.FlyThroughCore.StoreParams | src/flythrough_core.cpp:106-113 | The camera height, look-ahead, pitch, exaggeration and DEM layer are copied from the parameters. |
| Core.FlyThroughCore.GenerateKeyframes | src/flythrough_core.cpp:361-488 | mKeyframes becomes exactly Keyframes of the input, one per vertex. mTotalDuration becomes the last keyframe's time, and an empty result leaves it unchanged. |
| Core.FlyThroughCore.PlanKeyframes | src/flythrough_core.cpp:366-484 | Smoothing, the peak scan and the keyframe loop together yield exactly Keyframes of the input. |
| Core.FlyThroughCore.ScanPeak | src/flythrough_core.cpp:367-381 | The scan loop over the densified copy yields PathMaxElevation. |
| Core.FlyThroughCore.BuildKeyframes | src/flythrough_core.cpp:404-484 | The keyframe loop, with its time and previous-bearing accumulators, yields exactly KeyframeSeq. |
| Core.FlyThroughCore.PushKeyframe | src/flythrough_core.cpp:407-483 | One pass appends keyframe i to the first i keyframes. It moves the time to vertex i + 1 and the previous bearing to vertex i's yaw. |
| Core.FlyThroughCore.FixedAltitudes | src/flythrough_core.cpp:386-402 | autoFixedZ is the safe-path altitude in safe-path mode and userFixedAMSL the fixed altitude in fixed mode. Each is 0 otherwise. |
| Core.FlyThroughCore.MakeKeyframe | src/flythrough_core.cpp:408-464 | One loop body emits exactly KeyframeAt for its vertex. |
| Core.FlyThroughCore.AdvanceTime | src/flythrough_core.cpp:476-481 | The accumulator moves to the next vertex's time, and stays put after the last vertex. |
| Core.FlyThroughCore.BankingRoll | src/flythrough_core.cpp:434-449 | The roll computed in the loop is RollAt of the vertex. |
| Core.FlyThroughCore.TurnRoll | src/flythrough_core.cpp:446-448 | -turnAngle * factor clamped to [-45, 45] is BankRoll. |
| Core.FrameOf | src/flythrough_core.cpp:594-635 | The tick's interpolation yields exactly FrameAt, with yaw from the loop-based lerpAngle. |
| Core.FlyThroughCore.MoveCamera | src/flythrough_core.cpp:669-750 | moveCamera with the stored camera height, look-ahead and DEM layer yields exactly PoseOf. The distance is at least 1 or the stored camera height, and the pitch and yaw are in range. |
| Core.FlyThroughCore.SetupAnimation | src/flythrough_core.cpp:538-577 | With keyframes, the cursor resets to (0, 0), the interval becomes 1000 / fps and the step interval / 1000. The camera pose is moveCamera at the first keyframe, looking at the second, or at itself when there is only one. Without keyframes nothing changes and no pose is produced. |
| Core.FlyThroughCore.PlaceAtStart | src/flythrough_core.cpp:562-566 | The first camera move is moveCamera at kf0 toward kf1, or toward kf0 for a single keyframe. |
| Core.FlyThroughCore.AdvanceAnimation | src/flythrough_core.cpp:589-642 | The new cursor is Advance of the old one. The frame shown is Step's frame, none once finished. A pose is produced exactly when a frame is, and it is moveCamera of that frame's position, heading, pitch, target and altitude. |
| Core.FlyThroughCore.CurrentFrame | src/flythrough_core.cpp:598-636 | The frame is FrameAt of the cursor, and the pose is moveCamera of that frame. |
| Core.FlyThroughCore.MoveCursor | src/flythrough_core.cpp:639-642 | The cursor moves exactly as Advance says. |

## Left out

- Host plumbing is not part of this model: `generateFlythrough`, the rest of `setup3DCanvas`, `findExisting3DCanvas`, `close3DCanvas`, `stopAnimation`, `extractPathVertices`, message boxes, timers and `processEvents`. The dialog and plugin files are not part of it either.
- Camera-controller lookup and dispatch in `moveCamera` are not modelled. `MoveCamera` returns the pose that would be handed over, and the early returns when no canvas or controller exists are not modelled.
- `getElevationAtPoint` and `calculateDistance` are parameters: a raster sampling function and a non-negative distance. CRS transforms and ellipsoid measurement are not modelled.
- Trigonometry and square roots are parameters (`Trig`). Only their ranges and signs are known. IEEE double rounding, infinities and NaN are not modelled: all arithmetic is on exact reals.
- Preprocess.DensifyPath: requires a positive interval. The only caller passes 2.0, and with a non-positive interval flythrough_core.cpp's step count is meaningless.
- Keyframes.SegmentDuration: a zero speed gives duration 0 here, where flythrough_core.cpp divides by zero and gets an infinity or NaN.
- Pose.CorrectionOf: a zero tangent leaves the look vector unchanged here, where flythrough_core.cpp divides by zero and compares an infinity.
- Core.FlyThroughCore.SetupAnimation: requires a non-zero fps, since flythrough_core.cpp divides by it. Its second `moveCamera` call, made after letting tiles load, repeats the first with the same arguments and is not repeated.
- Core.FlyThroughCore.GenerateKeyframes: the keyframes are built in a local sequence and stored at the end, rather than pushed onto the cleared field one by one. No reader observes the difference.
- The debug counter `mDbgCount` and all `qDebug` output are not modelled.
- `mProjectCRS`, `mCanvas3D`, `mMapSettings3D`, `mIface` and `mAnimTimer` are not modelled: they are host objects.
- The C `int` width of `mAnimIndex`, `numSegments` and `mAnimIntervalMs` is not modelled. Those values are unbounded integers here, which matters only beyond 2^31 points or steps.
