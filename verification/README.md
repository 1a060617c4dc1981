# Retro-Hopper: a Dafny model of its decision logic

Retro-Hopper is a browser runner game ("dino game") played with the
keyboard or with body gestures seen by a webcam. PoseNet turns each video
frame into a list of poses, and the game reads the first pose's keypoints:
the nose (keypoint 0) and the two shoulders (keypoints 5 and 6). A few
seconds after start-up it captures a baseline once. After that it compares
every frame with the baseline to decide between jump, crouch and neutral.
The game loop moves the dino and the obstacles and counts the score. It
stops on a collision, and then it stores the score.

This project models that logic apart from the browser:

- `poses.dfy` (module `Poses`) holds the shared pieces: keypoints, the
  17-keypoint pose, the shoulder line, the gesture, the calibration states,
  and the band rule `Classify` that every recogniser uses.
- `src_dino.dfy` (module `SrcDino`) models `UI-inprogess/src/dino.js`. This
  variant uses the shoulder rule with a ±50 px band and captures after
  3000 ms. A neutral frame stops ducking and, when the dino is not
  jumping, resets `--bottom`. It also has a duck animation.
- `dino.dfy` (module `Dino`) models `UI-inprogess/dino.js`, the dino that the
  game loop drives. A frame counts only while the nose x is in [200, 450].
  The rule is the same ±50 px shoulder rule and the capture comes after
  7000 ms. A neutral frame changes nothing, and once the dino crouches, only
  `setupDino` makes it stand up again.
- `sketch.js` is modelled by `sketch.dfy` (module `Sketch`). This variant uses
  the nose rule with a ±70 px band and reads a frame only while the nose x is
  in [100, 550]. Detection only reports a gesture and changes no state.
  Calibration can be re-armed with `restartCalibration`.
- `obstacles.dfy` (module `Obstacles`) models `UI-inprogess/obstacles.js`,
  which moves, prunes and spawns obstacles on a countdown.
- `script.dfy` (module `Game`) models `UI-inprogess/script.js`: the game loop,
  collision, score and speed, the stored scores and the high score, and how
  the world fits the window.

Each file whose module-level variables change step by step becomes a
class. Its handlers become methods, and each method's `modifies` clause
names exactly the variables the handler writes. The pure rules become
functions and lemmas. Positions, times and speeds are exact `real`s.
`Math.random()` results are parameters in [0, 1). A `setTimeout` callback
runs when its "timer fires" method is called. An `undefined` or `null`
value is `None`.

Facts about the code that shape the model:

- The three recognisers differ: bands of 50, 50 and 70 px, and capture
  delays of 3000, 7000 and 7000 ms. They are modelled separately.
- In `UI-inprogess/dino.js` a neutral frame changes nothing.
- `sketch.js` only logs the gesture it detects.
- `restartCalibration` (sketch.js:202-204) re-arms `handleCalibration`,
  even while a capture is still pending.
- No variant reads keypoint confidence for the jump/crouch decision.
- Each file calls `drawCameraIntoCanvas` while it loads, before it
  creates the PoseNet model (UI-inprogess/src/dino.js:153,
  UI-inprogess/dino.js:44, sketch.js:51). That call schedules the capture. The
  constructors model the state after the declarations and before that
  call, so they are Uncalibrated; the first `DrawFrame` is the load-time
  call. For the same reason the fresh `Dino.Dino` that `Game.Game`'s
  constructor makes is Uncalibrated. In the page, by contrast, the 7000 ms
  capture is already pending once script.js has imported dino.js.

## Model

| member | source | states |
|---|---|---|
| `Poses.ShoulderLine` | UI-inprogess/src/dino.js:186-190 | the current line is the midpoint of the two shoulders' y: equally far from both and between them |
| `Poses.Classify` | UI-inprogess/src/dino.js:195-205 | jump iff the baseline exists and the line is more than the band above it; crouch iff it exists and the line is more than the band below it; neutral iff there is no baseline or the line is within the band. So jump and crouch exclude each other, and an undefined baseline always gives neutral |
| `Poses.ClassifyMonotone` | UI-inprogess/src/dino.js:195-198 | moving further up keeps a jump a jump, and moving further down keeps a crouch a crouch |
| `SrcDino.Dino.constructor` | UI-inprogess/src/dino.js:26-35 | after the declarations and before the load-time `drawCameraIntoCanvas` call: no baseline, no capture scheduled, no frame seen, not jumping or ducking |
| `SrcDino.Dino.Setup` | UI-inprogess/src/dino.js:37-48 | `setupDino` clears the jump and duck flags and zeroes the frame, frame time, velocity and `--bottom`; only those change |
| `SrcDino.Dino.SetLose` | UI-inprogess/src/dino.js:60-63 | shows the lose image and puts `--bottom` at 0 |
| `SrcDino.Dino.HandleDuck` | UI-inprogess/src/dino.js:65-70 | a ducking dino on the ground shows the duck image at `--bottom` −8; otherwise nothing changes |
| `SrcDino.Dino.HandleRun` | UI-inprogess/src/dino.js:72-93 | `dinoFrame` stays in {0,1}. While jumping or ducking only the image changes. Otherwise, once the frame time reaches FRAME_TIME, the frame flips and FRAME_TIME is subtracted; then the scaled delta is added |
| `SrcDino.Dino.HandleJump` | UI-inprogess/src/dino.js:95-106 | does nothing unless jumping. Otherwise it moves by velocity×delta; at or below 0 it clamps `--bottom` to 0 and stops jumping; gravity lowers the velocity. A dino still jumping afterwards is above the ground |
| `SrcDino.Dino.OnJump` | UI-inprogess/src/dino.js:108-115 | no-op while jumping; otherwise sets the velocity to JUMP_SPEED and starts the jump |
| `SrcDino.Dino.OnDuck` | UI-inprogess/src/dino.js:127-135 | ducks only from the ground; no-op while already ducking; never sets ducking while jumping |
| `SrcDino.Dino.Update` | UI-inprogess/src/dino.js:50-54 | the whole new state of one step (`handleRun`, `handleJump`, `handleDuck`). Ducking is unchanged. A jumping dino loses GRAVITY×delta of velocity, moves by velocity×delta, and lands at 0 when that reaches the ground. A ducking dino on the ground sits at −8 on the duck image. The run frame flips, as in `HandleRun`, only when the dino was neither jumping nor ducking. A dino still jumping is above ground on the stationary image |
| `SrcDino.Dino.GotPoses` | UI-inprogess/src/dino.js:170-220 | stores the frame. An empty frame changes nothing else. Otherwise the classification of the first pose selects `onJump`, `onDuck`, or the neutral branch, which clears ducking and resets `--bottom` only when not jumping |
| `SrcDino.Dino.HandleCalibration` | UI-inprogess/src/dino.js:228-237 | the first call schedules one 3000 ms capture and sets `hasCalibrated`; every later call changes nothing |
| `SrcDino.Dino.FireCaptureTimer` | UI-inprogess/src/dino.js:239-246 | with a pose, the baseline becomes its shoulder line (Calibrated); with none, the capture fails for good (CaptureFailed) |
| `SrcDino.Dino.DrawFrame` | UI-inprogess/src/dino.js:145-151 | an animation frame re-reads the last poses with exactly `gotPoses`' effect (`ReadFrame`: jump, duck, or the neutral reset), then schedules the capture once; a calibration already under way or done is untouched |
| `SrcDino.Session` | UI-inprogess/src/dino.js:170-246 | from load, capture on a standing pose and then see a moving pose: the dino jumps iff the shoulders rose by more than 50 px, and ducks iff they sank by more than 50 px |
| `Dino.Dino.constructor` | UI-inprogess/dino.js:17-26 | after the declarations and before the load-time `drawCameraIntoCanvas` call: no baseline, no capture scheduled, not jumping or crouching |
| `Dino.Dino.Setup` | UI-inprogess/dino.js:120-131 | `setupDino` resets `isJumping`, `isCrouching`, `dinoFrame`, `currentFrameTime`, `yVelocity` and `--bottom` to their initial values, and nothing else |
| `Dino.Dino.SetLose` | UI-inprogess/dino.js:143-145 | only the image changes, to the lose image |
| `Dino.Dino.OnJump` | UI-inprogess/dino.js:196-201 | no-op while jumping; otherwise sets the velocity to JUMP_SPEED and starts the jump |
| `Dino.Dino.OnCrouch` | UI-inprogess/dino.js:190-194 | sets `isCrouching` and touches nothing else |
| `Dino.Dino.HandleRun` | UI-inprogess/dino.js:147-166 | `dinoFrame` stays in {0,1}. While jumping or crouching only the image changes. Otherwise, once the frame time reaches FRAME_TIME, the frame flips and FRAME_TIME is subtracted; then the scaled delta is added. So it flips at most once per tick |
| `Dino.Dino.HandleJump` | UI-inprogess/dino.js:168-179 | moves by velocity×delta while jumping; lands (clamp to 0, stop jumping) at or below 0; applies gravity |
| `Dino.Dino.GotPoses` | UI-inprogess/dino.js:49-93 | acts only when a pose exists with nose x in [200, 450]. Then a jump calls `onJump`, a crouch calls `onCrouch`, and a neutral frame changes nothing. Crouching is never cleared |
| `Dino.Dino.HandleCalibration` | UI-inprogess/dino.js:100-109 | schedules a single 7000 ms capture the first time; later calls change nothing |
| `Dino.Dino.FireCaptureTimer` | UI-inprogess/dino.js:111-118 | with a pose, the baseline becomes its shoulder mean; with none, the capture fails for good |
| `Dino.Dino.DrawFrame` | UI-inprogess/dino.js:36-42 | an animation frame re-reads the last poses with exactly `gotPoses`' effect (`ReadFrame`: within the nose window, jump or crouch; otherwise nothing), then schedules the capture once; crouching is never cleared |
| `Dino.CrouchThenStand` | UI-inprogess/dino.js:65-84 | after a calibration, a crouch pose and a return to the standing pose, the dino is still crouching iff the crouch pose was more than 50 px low, so crouch is sticky |
| `Sketch.HandleJump` | sketch.js:132-175 | reads a gesture iff a pose exists with nose x in [100, 550]. The written test (jump iff nose line > headY + 70, crouch iff nose line < headY − 70, jump first) equals the band rule on the nose with band 70. It is a function, so no state changes |
| `Sketch.Tracker.constructor` | sketch.js:18-25 | after the declarations and before the load-time `drawCameraIntoCanvas` call: no baseline, no nose line, nothing scheduled, no frame |
| `Sketch.Tracker.GotPoses` | sketch.js:58-62 | only stores the frame |
| `Sketch.Tracker.HandleCalibration` | sketch.js:177-186 | schedules one 7000 ms capture and sets `hasCalibrated` unless it is already set; otherwise nothing is scheduled |
| `Sketch.Tracker.FireCaptureTimer` | sketch.js:188-200 | with a pose, the nose line becomes keypoint 0's y and the shoulder line the mean of keypoints 5 and 6; with none, both stay as they were |
| `Sketch.Tracker.RestartCalibration` | sketch.js:202-204 | clears `hasCalibrated` and nothing else |
| `Sketch.Tracker.DrawFrame` | sketch.js:39-49 | an animation frame schedules the capture once and reports the current nose reading |
| `Sketch.RestartThenCalibrate` | sketch.js:177-204 | after `restartCalibration`, the next `handleCalibration` schedules exactly one fresh capture and a second call none |
| `Obstacles.RandomNumberBetween` | UI-inprogess/obstacles.js:93-95 | for r in [0,1) the result is an integer in [min, max] |
| `Obstacles.RandomIndex` | UI-inprogess/obstacles.js:77 | `Math.floor(Math.random() * n)` is a valid index into n images |
| `Obstacles.CreateGroundObstacle` | UI-inprogess/obstacles.js:74-81 | a ground obstacle at `left` 100 with no `top` and one of its 3 images |
| `Obstacles.CreateFlyingObstacle` | UI-inprogess/obstacles.js:83-91 | a flying obstacle at `left` 100, `top` 0.5, and one of its 4 images |
| `Obstacles.CreateRandomObstacle` | UI-inprogess/obstacles.js:62-72 | ground iff the roll is below 0.5; it starts at `left` 100, and only flying obstacles get `top` 0.5 |
| `Obstacles.AdvanceAppend` | UI-inprogess/obstacles.js:23-32 | moving and pruning a concatenation does each part separately and keeps their order |
| `Obstacles.AdvanceMembers` | UI-inprogess/obstacles.js:23-32 | an obstacle survives iff it is some original moved left by the step and now right of −100 |
| `Obstacles.AdvanceShrinks` | UI-inprogess/obstacles.js:23-32 | moving and pruning never lengthens the list |
| `Obstacles.AdvanceKeepsAll` | UI-inprogess/obstacles.js:23-32 | when none reaches −100, every obstacle is kept, in order, each moved left by the step |
| `Obstacles.AdvancePlaced` | UI-inprogess/obstacles.js:23-32 | for a non-negative step, every survivor is still on the track (between −100 and 100) with a valid image |
| `Obstacles.MoveAll` | UI-inprogess/obstacles.js:23-32 | the `forEach` loop computes exactly `Advance`: each obstacle moved left by delta×speedScale×0.05, those at or below −100 removed, the rest in order |
| `Obstacles.Field.constructor` | UI-inprogess/obstacles.js:13 | no obstacles at load |
| `Obstacles.Field.Setup` | UI-inprogess/obstacles.js:15-20 | `nextObstacleTime` is 1500 and there are no obstacles |
| `Obstacles.Field.Update` | UI-inprogess/obstacles.js:22-41 | the obstacles are moved and pruned. A new obstacle is appended only when `nextObstacleTime` ≤ 0, and the countdown is then reset to an integer in [1500, 2500] divided by `speedScale`. Finally the countdown drops by delta. Every obstacle stays on the track |
| `Game.CollisionSymmetric` | UI-inprogess/script.js:68-75 | `isCollision` does not depend on the order of its arguments |
| `Game.CollisionIsSharedPoint` | UI-inprogess/script.js:68-75 | for boxes with area, `isCollision` holds iff some point lies strictly inside both |
| `Game.CheckLose` | UI-inprogess/script.js:62-66 | true iff some obstacle box collides with the dino box; false with no obstacles |
| `Game.MaxOf` | UI-inprogess/script.js:160 | `Math.max` of a non-empty list is an element at least as large as every element |
| `Game.GetHighScore` | UI-inprogess/script.js:152-168 | returns a value iff some stored score is positive (none for the empty list), and the value is the list maximum |
| `Game.PixelToWorldScale` | UI-inprogess/script.js:119-126 | the 100×30 world scaled by the result fits inside the window and fills its width or its height |
| `Game.WideByHeight` | UI-inprogess/script.js:121-122 | in the width branch, the full-width world is shorter than the window |
| `Game.TallByHeight` | UI-inprogess/script.js:123-125 | in the height branch, the full-height world is narrower than the window |
| `Game.Game.constructor` | UI-inprogess/script.js:20-41 | at load the world fits the window, `lastTime` is unset, the stored scores are those already in storage |
| `Game.Game.SetPixelToWorldScale` | UI-inprogess/script.js:119-129 | the world element is at most the window's width and height, fills one of them, and keeps the 100:30 shape |
| `Game.Game.UpdateSpeedScale` | UI-inprogess/script.js:77-79 | `speedScale` grows by delta×0.00001, so it never decreases |
| `Game.Game.UpdateScore` | UI-inprogess/script.js:81-84 | `score` grows by delta×0.01 and the display shows its floor |
| `Game.Game.StoreScore` | UI-inprogess/script.js:131-150 | appends exactly `floor(score)` at the end of the stored list; earlier entries are unchanged |
| `Game.Game.HandleLose` | UI-inprogess/script.js:104-117 | the dino shows the lose image and the score is stored |
| `Game.Game.HandleStart` | UI-inprogess/script.js:86-102 | `lastTime` is null, `speedScale` 1.3, `score` 0. The dino's six movement variables and the obstacles are set up again. A positive stored high score is shown. Nothing else changes: the dino's poses, image and calibration stay, and so do the score text, stored scores and world size |
| `Game.Game.Update` | UI-inprogess/script.js:43-60 | the first tick after a start only records the time. Otherwise the dino's jump step always happens: velocity, landing and `--bottom`. The tick crashes iff the dino is crouching, and a crashed tick changes nothing in the game's own state. Otherwise speed and score grow by delta's share. The tick is lost iff `checkLose` holds; a lost tick stores the score, keeps `lastTime` and shows the lose image. A running tick records the time. The high-score text, the world size and the dino's calibration never change |

## Left out

- The webcam (`getUserMedia`), the PoseNet model, its options and
  `modelReady` are not modelled. They are an outside producer of pose
  lists, and `GotPoses` receives those lists.
- Poses are assumed to have PoseNet's fixed 17 keypoints, so the keypoint
  lookups never fail. A pose with missing keypoints is not modelled.
  Keypoint confidence is carried along but never read: the source checks
  it only for drawing.
- Canvas drawing (`drawImage`, `logChanges`, `drawKeypoints`,
  `drawSkeleton`, the red baseline line) and `console.log` are left out
  because they are output only.
- Audio (jump, footsteps, background music, volume, lose and flying sounds)
  is left out because it is output only.
- Image paths are reduced to the `Sprite` enum and an obstacle's image index.
- `requestAnimationFrame` and real `setTimeout` timing are left out. A
  pending capture is a delay in `captureTimers`, and it fires when
  `FireCaptureTimer` is called. The re-arming of the start listener 100 ms
  after a loss is left out too.
- The `try`/`catch` around `handleCalibration` is left out: nothing inside
  it can throw in the model.
- `localStorage` and JSON are left out. The stored scores are a list of
  integers, and serialisation is not modelled.
- `Math.random` is not called. Each draw is a parameter in [0, 1).
- Floating point is not modelled. All arithmetic is on exact reals, so no
  claim is made about rounding, NaN or Infinity. The one exception is the
  `undefined` baseline, which compares false, as modelled by `Classify`.
- Keyboard listener plumbing is left out: the `keydown` wiring in
  `setupDino` and the `{ once: true }` start listener.
- `UI-inprogess/src/handleStart.js` is left out: it only assigns to imported
  bindings and has no logic of its own.
- `handleCrouch` in UI-inprogess/dino.js gets no semantics. It reads a
  `delta` that is not in scope. The model records only that the step stops
  there while the dino is crouching (`Game.Game.Update` returns `Crashed`).
- `updateGround`/`setupGround` are left out: ground.js is not part of this
  model.
- `getDinoRect` and `getObstacleRects` are left out because they are
  browser layout. Their boxes are parameters of `Game.Game.Update`.
- `duckFrame`, `lastDuckFrameTime` and `DUCK_FRAME_TIME` in
  UI-inprogess/src/dino.js are left out because nothing reads them.
- Before `setupDino`/`handleStart`, the source leaves the frame, frame time,
  velocity, speed and score undefined, and obstacles.js leaves
  `nextObstacleTime` undefined (UI-inprogess/obstacles.js:13). The constructors give them their
  setup values instead, because the game loop reads them only after setup.
- `Game.Game.Update` does not state a tick's effect on the obstacles or on
  the dino's run frame and image (apart from the lose image). Those are the
  contracts of `Obstacles.Field.Update` and `Dino.Dino.HandleRun`, which it
  calls. It also does not tie the layout boxes it is given to the moved
  obstacles.
- `Sketch.Tracker.FireCaptureTimer` assumes sketch.js runs as a classic,
  non-strict script. There, `getPositionY`'s assignments to the undeclared
  names `yAxixLeftShoulderLine`, `yAxisRightShoulderLine` and `yAxixNoseLine`
  (sketch.js:192-194) create globals. Loaded as a module, line 192 would
  throw and no capture would ever succeed; that case is not modelled.
