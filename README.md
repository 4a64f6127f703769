# Rover decision and perception, modelled in Dafny

This project models the two per-tick steps of a simulated sample-return rover:

- **the decision step** (`code/decision.py`). This is a five-mode state machine: forward, turning, approaching, stop and unlocking.
  - Each tick it turns the current readings into throttle, brake and steering commands.
  - It has two stall timers, one for halted and one for looping, that switch the rover to unlocking.
  - It requests a sample pickup.
- **the perception step** (`code/perception_v2.py`). It works on the warped camera image:
  - it thresholds the image into ground, obstacle and rock masks;
  - it moves their nonzero pixels into the rover frame, crops them and projects them onto a 200 x 200 world grid;
  - it counts them into the three channels of the world map, only while the rover is level;
  - it confirms catalog rock samples that lie within 3 cells of a rock hit on the map.

Files:

- `rover_state.dfy` (module `RoverState`) holds the shared rover object.
  - The `Rover` class has the fields the two steps read and write: the detected-sample array, the `array3<int>` world map, and so on.
  - It has ghost snapshots of the settings (`Cfg`), the readings (`Sensed`) and the controls (`Ctl`).
  - It models numpy's row indexing, where a negative index counts from the end.
- `decision.dfy` (module `Decision`) has two parts:
  - `Decide`, the pure specification of one tick, built from one function per mode, with lemmas stating what a tick promises;
  - the imperative `DecisionStep` and one method per mode, which update the rover in place and are proved equal to `Decide`.
- `perception.dfy` (module `Perception`) holds:
  - pure functions for the array code: thresholds, `nonzero`, the rover frame, cropping, projection and `samples_diff`;
  - the imperative `UpdateRocks`, which writes into the detected-sample array;
  - the world-map update, done in place with numpy's buffered `+= 1` semantics;
  - `PerceptionStep`, which composes them.

Points where the code's behaviour is easy to misread, and which the model follows as written:

- In forward mode the lateral `deviation` bias is added after the ±15° clip (decision.py:56), so the steering command can leave ±15°. `Decision.ForwardSteerCanExceedFifteen` shows an input where it does; `Decision.SteerStaysInBand` proves the bound that does hold.
- decision.py has no integral term in its speed command, no approach timer and no `sample_in_sight` flag. Forward mode sets the throttle to `throttle_set` below `max_vel` and to 0 otherwise (decision.py:49-53).
- Stop mode brakes when `vel > 0.2` (decision.py:139), a signed test: a rover reversing faster than 0.2 counts as at rest.

## Model

| member | source | states |
|---|---|---|
| RoverState.RowIndex | code/decision.py:9-10 | numpy's row index: a row in range, the same index when non-negative, and counted from the end when negative |
| Decision.Clip | code/decision.py:24 | np.clip: the result lies in [lo, hi]; it is v inside the range and the nearer bound outside it |
| Decision.MeanDegreesBounds | code/decision.py:56 | the mean navigable angle in degrees lies between the smallest and the largest angle it averages |
| Decision.YawSteer | code/decision.py:18-25 | control_yaw: steer is Kp times the wrapped heading error when that lies within ±15, else the nearer bound; always within ±15 |
| Decision.TimerResetsWhenConditionFails | code/decision.py:71-72 | a stall timer whose condition fails this tick is unset and does not fire |
| Decision.TimerArmsAtNow | code/decision.py:67-68 | an unset timer whose condition holds is armed with the clock reading of this tick and does not fire |
| Decision.TimerFiresPastLimit | code/decision.py:69-78 | an armed timer whose condition holds fires exactly when now - start exceeds the limit, and is then unset |
| Decision.TimerStartIsHoldStart | code/decision.py:66-72 | over any run of ticks, a set timer holds the clock reading of a tick since which the condition held at every tick |
| Decision.FiresOnlyAfterContinuousHold | code/decision.py:66-78 | a timer that starts unset fires only when its condition has held at every tick since an earlier tick more than the limit ago |
| Decision.NoVisionFallback | code/decision.py:182-189 | without vision data: throttle_set, steer 0, brake 0, with mode, timers and heading reference unchanged; only the pickup rule may also fire |
| Decision.PickupRequestIsSticky | code/decision.py:187-189 | near a sample, at rest and not picking up, a pickup is requested; a request already raised is never withdrawn |
| Decision.NewSampleForcesTurning | code/decision.py:39-111 | a newly located sample records the count and runs turning: it brakes while moving; at rest it aims at the last sample and goes approaching iff the heading error is below 1°, otherwise it steers by heading control; timers untouched |
| Decision.TurningBehaviour | code/decision.py:94-111 | every tick dispatched in turning mode, including the ticks after the one that found the sample: it brakes while moving; at rest it re-aims at the last sample and goes approaching iff the unwrapped heading error is below 1°, otherwise it steers by heading control; timers untouched |
| Decision.ForwardCruise | code/decision.py:44-93 | forward with at least stop_forward angles: brake 0, throttle_set below max_vel else 0, steer = clipped mean angle + deviation; mode stays forward unless a stall timer fires |
| Decision.ForwardBlocked | code/decision.py:57-93 | forward with too few angles: throttle 0, brake_set, steer 0, mode stop, unless a stall timer checked afterwards fires |
| Decision.HaltedTimerResetsWhenMoving | code/decision.py:66-72 | in forward mode at speed 0.2 or more, the halted timer is unset |
| Decision.HaltedRecovery | code/decision.py:66-93 | halted in forward past max_time_stopped: unlocking, timer unset, reference 15° clockwise (or -unstuck_angle when the looping timer fires as well) |
| Decision.LoopingRecovery | code/decision.py:79-93 | steering pinned near stuck_steer_angle past max_time_looping: unlocking, timer unset, reference turned by -unstuck_angle |
| Decision.StopBehaviour | code/decision.py:137-172 | stop mode: brake and unset the halted timer while moving; at rest, turn at -15° while blocked or drive off at the clipped mean angle once clear, and arm or keep the halted timer; when it fires, unlocking with the timer unset and the reference 15° clockwise |
| Decision.ApproachingBehaviour | code/decision.py:112-135 | approaching: throttle and heading control toward the last sample, staying in approaching; near it, brake and request a pickup and return to forward when no pickup is under way; when the halted timer fires, unlocking with the timer unset and the reference 15° clockwise |
| Decision.UnlockingBehaviour | code/decision.py:173-178 | unlocking: throttle 0, brake untouched, back to forward iff the heading error is below 1°, heading control otherwise |
| Decision.SteerStaysInBand | code/decision.py:44-178 | every tick keeps the steering within 15° plus the size of the deviation bias |
| Decision.ForwardSteerCanExceedFifteen | code/decision.py:56 | a concrete forward tick whose steering is 17°, outside ±15° |
| Decision.ControlYaw | code/decision.py:18-25 | the method sets steer to YawSteer of the rover's gain, reference and heading |
| Decision.ComputeYawref | code/decision.py:8-16 | the method sets yawref to the wrapped bearing to the detected-sample row samples_located - 1, numpy indexed |
| Decision.CheckHalted | code/decision.py:66-78 | the in-place halted check of forward mode equals the timer specification HaltedCheck |
| Decision.CheckLooping | code/decision.py:79-93 | the in-place looping check equals LoopingCheck |
| Decision.DriveForward | code/decision.py:46-64 | the in-place drive command of forward mode equals ForwardDrive |
| Decision.ForwardMode | code/decision.py:44-93 | forward mode in place equals ForwardTick: the drive command, then the halted check, then the looping check |
| Decision.TurningMode | code/decision.py:94-111 | turning mode in place equals TurningTick |
| Decision.ApproachingMode | code/decision.py:112-135 | approaching mode in place equals ApproachingTick |
| Decision.DriveFromStop | code/decision.py:147-161 | the at-rest drive command of stop mode equals StopDrive |
| Decision.CheckHaltedAtRest | code/decision.py:162-172 | the halted check of stop mode, where the rover is at rest, equals HaltedCheck with the condition true |
| Decision.StopMode | code/decision.py:137-172 | stop mode in place equals StopTick |
| Decision.UnlockingMode | code/decision.py:173-178 | unlocking mode in place equals UnlockingTick |
| Decision.VisionStep | code/decision.py:36-178 | the vision branch in place equals VisionTick: the new-sample override, then the mode dispatch |
| Decision.DecisionStep | code/decision.py:28-191 | decision_step changes only the controls, and the new controls equal Decide of the settings, readings and controls before the tick |
| Perception.ColorThresh | code/perception_v2.py:8-20 | color_thresh: a mask of the image's size that is 1 exactly where all three channels exceed the threshold, 0 elsewhere |
| Perception.ObstacleThresh | code/perception_v2.py:22-35 | obstacle_thresh: 0 where the pixel is above the threshold, the field-of-view mask value elsewhere |
| Perception.GroundAndObstacleSplitView | code/perception_v2.py:8-35 | ground and obstacle masks never both mark a pixel, obstacles lie inside the field of view, and where there is no ground the obstacle mask is the field of view |
| Perception.Nonzero | code/perception_v2.py:52 | ndarray.nonzero: exactly the nonzero pixels, each once, in row-major order |
| Perception.RoverCoords | code/perception_v2.py:50-57 | rover_coords: one point per nonzero pixel, x = rows - row (between 1 and the height), y = width / 2 - column |
| Perception.RoverCoordsInvertible | code/perception_v2.py:50-57 | each rover-frame point maps back to the pixel it came from |
| Perception.CropXY | code/perception_v2.py:110-113 | crop_xy: the points with x below the crop value, and all of them |
| Perception.CropXYKeepsOrder | code/perception_v2.py:110-113 | cropping distributes over concatenation, so order is kept, and cropping twice is cropping once |
| Perception.TranslatePix | code/perception_v2.py:80-85 | translate_pix: undoing the shift and the scaling gives back the rotated pixel |
| Perception.Trunc | code/perception_v2.py:96-97 | np.int_ truncates toward zero: within 1 below a non-negative value, within 1 above a negative one |
| Perception.ClipIndex | code/perception_v2.py:96-97 | np.clip to [0, world_size - 1]: in range, unchanged when in range, else the nearer end |
| Perception.WorldIndex | code/perception_v2.py:96-97 | a grid index in range: the truncated coordinate when that is on the grid, 0 below it and size - 1 above it |
| Perception.ClippedTruncIsClippedFloor | code/perception_v2.py:96-97 | after clipping, truncation and floor give the same index |
| Perception.PixToWorld | code/perception_v2.py:90-99 | pix_to_world: one cell per point, every cell on the grid; each coordinate is the truncated translated rotation when that is on the grid, and the nearer edge otherwise |
| Perception.ProjectMask | code/perception_v2.py:190-201 | the cropped, projected cells of one mask all lie on the 200 x 200 grid |
| Perception.SamplesDiff | code/perception_v2.py:115-123 | samples_diff: the catalog entries whose x appears in no detected row, and all of them; order and multiplicity are fixed by SamplesDiffKeepsOrder |
| Perception.SamplesDiffKeepsOrder | code/perception_v2.py:115-123 | samples_diff keeps catalog order and lists each entry once: it distributes over concatenation, and a single entry is kept iff no detected row shares its x |
| Perception.MinSqDist | code/perception_v2.py:136-141 | the minimum squared distance to the hit cells: no larger than any, equal to one |
| Perception.MinWithinThreeIffSomeHitNear | code/perception_v2.py:136-141 | the update_rocks test min distance < 3 holds iff some hit cell lies closer than 3 |
| Perception.Confirmed | code/perception_v2.py:130-141 | one call confirms exactly the undetected catalog entries within 3 of a rock hit when some hit lies off row 0, and none otherwise; order and multiplicity are fixed by ConfirmedKeepsOrder and ConfirmedOfOne |
| Perception.ConfirmedKeepsOrder | code/perception_v2.py:130-141 | the candidates are confirmed in catalog order, each at most once: the confirmation of a concatenation is the concatenation of the confirmations |
| Perception.ConfirmedOfOne | code/perception_v2.py:130-141 | a single entry is confirmed iff some hit lies off row 0, no detected row shares its x and a hit lies within 3 of it |
| Perception.ConfirmRocks | code/perception_v2.py:124-145 | update_rocks as written: the count grows by the number of confirmed entries; row `located` ends up holding the last of them and no other row changes; with nothing confirmed the record is unchanged |
| Perception.ConfirmRocksMonotone | code/perception_v2.py:124-145 | the located count never decreases; with no rock hit off row 0 nothing changes |
| Perception.ConfirmRocksIntended | code/perception_v2.py:142-143 | the corrected update: the count grows by the number of confirmed entries, which are written to consecutive rows from the old count on, all other rows unchanged |
| Perception.IntendedConfirmsOnce | code/perception_v2.py:142-143 | with consecutive rows, no entry confirmed in one call is offered for confirmation again |
| Perception.AsWrittenAgreesOnOneConfirmation | code/perception_v2.py:141-143 | when a call confirms at most one entry, the code as written and the corrected update give the same result |
| Perception.AsWrittenCountsASampleTwice | code/perception_v2.py:141-143 | as written, two catalog samples confirmed together give a located count of 3 after two ticks |
| Perception.RockChannelHits | code/perception_v2.py:126 | the nonzero rock-channel cells of the map, each listed, and nothing else |
| Perception.NearestHitDecidesNearRock | code/perception_v2.py:136-141 | on a list holding exactly the hit cells, the nearest-hit test is the test against the set of hits |
| Perception.ScanOne | code/perception_v2.py:133-143 | one candidate: confirmed exactly when near a rock hit, then written to the row the count names and the count incremented; otherwise nothing changes |
| Perception.ScanCandidates | code/perception_v2.py:133-143 | the loop: the candidates near a hit are written, in order, to the rows from the count on entry, and the count grows by their number; other rows are unchanged |
| Perception.UpdateRocks | code/perception_v2.py:124-145 | update_rocks on the rover, with the row corrected (see Findings): the detected array and the count become ConfirmRocksIntended of the old ones and the map's rock hits |
| Perception.Accumulate | code/perception_v2.py:208-210 | worldmap[ys, xs, ch] += 1: each listed cell of the channel gains exactly 1 however often it is listed, every other counter is unchanged |
| Perception.Project | code/perception_v2.py:190-201 | the obstacle (crop 20), rock (crop 30) and ground (crop 20) cells all lie on the grid |
| Perception.RecordFrame | code/perception_v2.py:208-210 | each channel's cells gain 1 and nothing else changes |
| Perception.NavPolar | code/perception_v2.py:184-186 | nav_dists and nav_angles: one distance and one angle per ground pixel, in order |
| Perception.MapFrame | code/perception_v2.py:189-210 | level within 2° in pitch and roll: each projected cell gains 1 per channel; otherwise the map is unchanged |
| Perception.PerceptionStep | code/perception_v2.py:148-212 | perception_step: nav data are the polar ground pixels; samples are confirmed against the map as it was, with the corrected update; then the map gains this frame's cells only when level |

## Left out

- rocks_thresh (perception_v2.py:37-47) and perspect_transform (102-107) call OpenCV's HSV conversion, range mask and perspective warp. Their results are inputs of `PerceptionStep`: the warped image, the field-of-view mask and the colour-masked rock image. Only the final `color_thresh(…, (5, 5, 5))` of rocks_thresh is modelled.
- rotate_pix and to_polar_coords (trigonometry and a square root) are parameters, `rotate` and `toPolar`. So are `wrap_angle_180` and `np.arctan2`: wrap_angle_180 is in supporting_functions.py, which is not part of this model.
- The distance test `sqrt(d²) < 3` is modelled as `d² < 9` on exact reals.
- Floating point is modelled as exact reals throughout. The `float32` casts, NaN and rounding are not modelled.
- `time.time()` is one reading `now` per tick. In the source a stall check may read the clock at a slightly different instant on each call.
- print, `flag_print` and the `vision_image` display writes are not modelled: they affect no decision.
- Mode strings are the `Mode` datatype. `near_sample` and `picking_up` are booleans; the source compares them with 0.
- Decision.DecisionStep requires `stop_forward >= 1` and `go_forward >= 1` (`ConfigOk`). With 0, `np.mean` of an empty angle array gives NaN.
- Decision.DecisionStep and Decision.ComputeYawref require row `samples_located - 1` to exist whenever the tick reads it. The source raises IndexError otherwise.
- Perception.UpdateRocks requires the count to be non-negative: the program only ever starts it at 0 and increments it. With a negative count, numpy would write rows counted from the end, which the model does not cover. It also requires every row it writes to exist; for a row past the end, the source raises IndexError.
- Perception.SamplesDiff compares x coordinates only, as `np.in1d` on the x column does. It includes the unwritten zero rows, so a catalog entry with x = 0 is never offered.
- The Rover constructor and the simulator telemetry that fills pose, velocity and the sample flags (drive_rover.py, supporting_functions.py) are not part of this model. `RoverState.Rover.constructor` only builds a rover with an empty map.
- Perception.Accumulate: when the same cell is listed more than once, the model gives numpy's buffered semantics (one increment). It does not model an unbuffered `np.add.at`.

## Findings

| source | as written | input that shows it | evidently intended | confidence | as-written member | corrected member |
|---|---|---|---|---|---|---|
| code/perception_v2.py:142-143 | every sample confirmed in one call is written to row `samples_located` as read at the start of the call, while the count is incremented once per sample | catalog (10,10), (20,10); rock hits at cells (10,10) and (20,10); three zero rows. Tick 1 stores only (20,10) and counts 2. Tick 2 offers (10,10) again, confirms it, and counts 3 for two samples | one row per confirmed sample, from the count on, so no sample is confirmed twice | not executed | Perception.AsWrittenCountsASampleTwice | Perception.ConfirmRocksIntended |

`Perception.ConfirmRocks` models the code as written. `Perception.AsWrittenCountsASampleTwice` exhibits the double count, and `Perception.AsWrittenAgreesOnOneConfirmation` shows the two versions agree whenever a call confirms at most one sample. `Perception.UpdateRocks` and `Perception.PerceptionStep` use the corrected `Perception.ConfirmRocksIntended`. For it, `Perception.IntendedConfirmsOnce` proves that no sample is confirmed twice.
