/**
 * The dino of UI-inprogess/src/dino.js. Module-level variables become the
 * fields of one `Dino` object: the movement flags, the two-frame run
 * animation, the jump physics, the `--bottom` CSS property, and the one-shot
 * shoulder calibration. Each handler is a method that changes only the
 * fields named in its `modifies` clause.
 */
module SrcDino {
  import opened Poses

  const JUMP_SPEED := 0.45
  const GRAVITY := 0.0012
  const DINO_FRAME_COUNT := 2
  const FRAME_TIME := 100.0
  /** `--bottom` while ducking on the ground. */
  const DUCK_BOTTOM := -8.0
  /** Tolerance of the shoulder rule, in video pixels. */
  const SHOULDER_BAND := 50.0
  /** Delay of the baseline capture after the first animation frame. */
  const CAPTURE_DELAY_MS := 3000

  /** The image the dino element shows (its `src`). */
  datatype Sprite = Stationary | Run(frame: int) | Duck | Lose

  class Dino {
    var isJumping: bool
    var isDucking: bool
    var dinoFrame: int
    var currentFrameTime: real
    var yVelocity: real
    /** The `--bottom` custom property of the dino element. */
    var bottom: real
    var sprite: Sprite
    /** The most recent frame PoseNet delivered. */
    var poses: seq<Pose>
    var calibratedYLine: Option<real>
    var hasCalibrated: bool
    /** Pending `setTimeout(getPositionY, …)` timers, by delay in ms. */
    var captureTimers: seq<int>

    ghost predicate Valid()
      reads this
    {
      && 0 <= dinoFrame < DINO_FRAME_COUNT
      && |captureTimers| <= 1
      && (!hasCalibrated ==> captureTimers == [] && calibratedYLine.None?)
      && (captureTimers != [] ==> calibratedYLine.None?)
    }

    /** The calibration state machine, read off the variables. */
    function Calibration(): CalibrationState
      reads this
    {
      if !hasCalibrated then Uncalibrated
      else if captureTimers != [] then CapturePending
      else if calibratedYLine.Some? then Calibrated(calibratedYLine.value)
      else CaptureFailed
    }

    /** The module as loaded: nothing calibrated, no frame seen, standing still. */
    constructor ()
      ensures Valid()
      ensures !isJumping && !isDucking && bottom == 0.0 && poses == []
      ensures Calibration() == Uncalibrated
    {
      isJumping, isDucking := false, false;
      dinoFrame, currentFrameTime, yVelocity := 0, 0.0, 0.0;
      bottom, sprite := 0.0, Stationary;
      poses := [];
      calibratedYLine, hasCalibrated, captureTimers := None, false, [];
    }

    /** `setupDino`: back on the ground, running from the first frame. */
    method Setup()
      requires Valid()
      modifies this`isJumping, this`isDucking, this`dinoFrame, this`currentFrameTime,
        this`yVelocity, this`bottom
      ensures Valid()
      ensures !isJumping && !isDucking && dinoFrame == 0
      ensures currentFrameTime == 0.0 && yVelocity == 0.0 && bottom == 0.0
    {
      isJumping, isDucking := false, false;
      dinoFrame, currentFrameTime, yVelocity := 0, 0.0, 0.0;
      bottom := 0.0;
    }

    /** `setDinoLose`: the lose image, back on the ground line. */
    method SetLose()
      requires Valid()
      modifies this`sprite, this`bottom
      ensures Valid()
      ensures sprite == Lose && bottom == 0.0
    {
      sprite := Lose;
      bottom := 0.0;
    }

    /** `onJump`: start a jump unless one is under way. */
    method OnJump()
      requires Valid()
      modifies this`yVelocity, this`isJumping
      ensures Valid()
      ensures isJumping
      ensures yVelocity == if old(isJumping) then old(yVelocity) else JUMP_SPEED
    {
      if isJumping {
        return;
      }
      yVelocity := JUMP_SPEED;
      isJumping := true;
    }

    /** `onDuck`: duck, unless already ducking or in the air. */
    method OnDuck()
      requires Valid()
      modifies this`isDucking, this`sprite, this`bottom
      ensures Valid()
      ensures isDucking == (old(isDucking) || !isJumping)
      ensures isJumping ==> isDucking == old(isDucking)
      ensures if !old(isDucking) && !isJumping
        then sprite == Duck && bottom == 0.0
        else sprite == old(sprite) && bottom == old(bottom)
    {
      if isDucking {
        return;
      }
      if !isJumping {
        isDucking := true;
        sprite := Duck;
        bottom := 0.0;
      }
    }

    /** `handleDuck`: a ducking dino on the ground sinks to the duck height. */
    method HandleDuck()
      requires Valid()
      modifies this`sprite, this`bottom
      ensures Valid()
      ensures if isDucking && !isJumping
        then sprite == Duck && bottom == DUCK_BOTTOM
        else sprite == old(sprite) && bottom == old(bottom)
    {
      if isDucking && !isJumping {
        sprite := Duck;
        bottom := DUCK_BOTTOM;
      }
    }

    /**
     * `handleRun`: while running on the ground, flip between the two run
     * images each time FRAME_TIME of scaled time has gone by.
     */
    method HandleRun(delta: real, speedScale: real)
      requires Valid()
      modifies this`dinoFrame, this`currentFrameTime, this`sprite
      ensures Valid()
      ensures isJumping ==>
        sprite == Stationary && dinoFrame == old(dinoFrame) && currentFrameTime == old(currentFrameTime)
      ensures !isJumping && isDucking ==>
        sprite == Duck && dinoFrame == old(dinoFrame) && currentFrameTime == old(currentFrameTime)
      ensures !isJumping && !isDucking ==>
        if old(currentFrameTime) >= FRAME_TIME then
          && dinoFrame == 1 - old(dinoFrame)
          && sprite == Run(dinoFrame)
          && currentFrameTime == old(currentFrameTime) - FRAME_TIME + delta * speedScale
        else
          && dinoFrame == old(dinoFrame)
          && sprite == old(sprite)
          && currentFrameTime == old(currentFrameTime) + delta * speedScale
    {
      if isJumping {
        sprite := Stationary;
        return;
      }
      if isDucking {
        sprite := Duck;
        return;
      }
      if currentFrameTime >= FRAME_TIME {
        dinoFrame := (dinoFrame + 1) % DINO_FRAME_COUNT;
        sprite := Run(dinoFrame);
        currentFrameTime := currentFrameTime - FRAME_TIME;
      }
      currentFrameTime := currentFrameTime + delta * speedScale;
    }

    /**
     * `handleJump`: move by the current velocity, land (and stop jumping)
     * once `--bottom` is at or below the ground, and apply gravity.
     */
    method HandleJump(delta: real)
      requires Valid()
      modifies this`bottom, this`isJumping, this`yVelocity
      ensures Valid()
      ensures !old(isJumping) ==>
        !isJumping && bottom == old(bottom) && yVelocity == old(yVelocity)
      ensures old(isJumping) ==>
        && yVelocity == old(yVelocity) - GRAVITY * delta
        && (if old(bottom) + old(yVelocity) * delta <= 0.0
            then bottom == 0.0 && !isJumping
            else bottom == old(bottom) + old(yVelocity) * delta && isJumping)
      ensures isJumping ==> bottom > 0.0
    {
      if !isJumping {
        return;
      }
      bottom := bottom + yVelocity * delta;
      if bottom <= 0.0 {
        bottom := 0.0;
        isJumping := false;
      }
      yVelocity := yVelocity - GRAVITY * delta;
    }

    /** `updateDino`: one game-loop step of the dino. */
    method Update(delta: real, speedScale: real)
      requires Valid()
      modifies this`dinoFrame, this`currentFrameTime, this`sprite, this`bottom,
        this`isJumping, this`yVelocity
      ensures Valid()
      ensures isDucking == old(isDucking)
      ensures yVelocity == if old(isJumping) then old(yVelocity) - GRAVITY * delta else old(yVelocity)
      ensures isJumping == (old(isJumping) && old(bottom) + old(yVelocity) * delta > 0.0)
      ensures bottom ==
        if isDucking && !isJumping then DUCK_BOTTOM
        else if isJumping then old(bottom) + old(yVelocity) * delta
        else if old(isJumping) then 0.0
        else old(bottom)
      ensures old(isJumping) || old(isDucking) ==>
        && dinoFrame == old(dinoFrame) && currentFrameTime == old(currentFrameTime)
        && sprite == (if isDucking && !isJumping then Duck else Stationary)
      ensures !old(isJumping) && !old(isDucking) ==>
        if old(currentFrameTime) >= FRAME_TIME then
          && dinoFrame == 1 - old(dinoFrame)
          && sprite == Run(dinoFrame)
          && currentFrameTime == old(currentFrameTime) - FRAME_TIME + delta * speedScale
        else
          && dinoFrame == old(dinoFrame)
          && sprite == old(sprite)
          && currentFrameTime == old(currentFrameTime) + delta * speedScale
      ensures isJumping ==> bottom > 0.0 && sprite == Stationary
      ensures isDucking && !isJumping ==> sprite == Duck && bottom == DUCK_BOTTOM
    {
      HandleRun(delta, speedScale);
      HandleJump(delta);
      HandleDuck();
    }

    /**
     * What reading a frame does to the motion state: nothing when it holds
     * no pose; otherwise the first pose's shoulder line selects `onJump`,
     * `onDuck`, or the neutral branch (stop ducking and, on the ground,
     * reset `--bottom`).
     */
    twostate predicate ReadFrame(results: seq<Pose>)
      reads this
    {
      if results == [] then
        && isJumping == old(isJumping) && isDucking == old(isDucking)
        && yVelocity == old(yVelocity) && sprite == old(sprite) && bottom == old(bottom)
      else
        match Classify(ShoulderLine(results[0]), calibratedYLine, SHOULDER_BAND)
        case Jump =>
          && isJumping && isDucking == old(isDucking)
          && yVelocity == (if old(isJumping) then old(yVelocity) else JUMP_SPEED)
          && sprite == old(sprite) && bottom == old(bottom)
        case Crouch =>
          && isJumping == old(isJumping) && yVelocity == old(yVelocity)
          && isDucking == (old(isDucking) || !old(isJumping))
          && (if !old(isDucking) && !old(isJumping)
              then sprite == Duck && bottom == 0.0
              else sprite == old(sprite) && bottom == old(bottom))
        case Neutral =>
          && !isDucking
          && isJumping == old(isJumping) && yVelocity == old(yVelocity)
          && sprite == old(sprite)
          && bottom == (if old(isJumping) then old(bottom) else 0.0)
    }

    /** `gotPoses`: remember the frame and act on it as `ReadFrame` says. */
    method GotPoses(results: seq<Pose>)
      requires Valid()
      modifies this`poses, this`isJumping, this`isDucking, this`yVelocity,
        this`sprite, this`bottom
      ensures Valid()
      ensures poses == results
      ensures ReadFrame(results)
    {
      poses := results;
      if |poses| > 0 {
        var currShoulderYLine := ShoulderLine(poses[0]);
        match Classify(currShoulderYLine, calibratedYLine, SHOULDER_BAND)
        case Jump =>
          OnJump();
        case Crouch =>
          OnDuck();
        case Neutral =>
          isDucking := false;
          if !isJumping {
            bottom := 0.0;
          }
      }
    }

    /** `handleCalibration`: schedule the baseline capture the first time only. */
    method HandleCalibration()
      requires Valid()
      modifies this`hasCalibrated, this`captureTimers
      ensures Valid()
      ensures hasCalibrated
      ensures old(Calibration()) == Uncalibrated ==>
        Calibration() == CapturePending && captureTimers == [CAPTURE_DELAY_MS]
      ensures old(Calibration()) != Uncalibrated ==>
        Calibration() == old(Calibration()) && captureTimers == old(captureTimers)
    {
      if !hasCalibrated {
        captureTimers := captureTimers + [CAPTURE_DELAY_MS];
        hasCalibrated := true;
      }
    }

    /**
     * The capture timer fires and runs `getPositionY`: the baseline becomes
     * the first pose's shoulder line. With no pose, `poses[0]` is undefined,
     * the callback throws, and the baseline stays unset for good.
     */
    method FireCaptureTimer() returns (captured: bool)
      requires Valid()
      requires captureTimers != []
      modifies this`captureTimers, this`calibratedYLine
      ensures Valid()
      ensures captureTimers == []
      ensures captured == (poses != [])
      ensures captured ==> Calibration() == Calibrated(ShoulderLine(poses[0]))
      ensures !captured ==> Calibration() == CaptureFailed
    {
      captureTimers := captureTimers[1..];
      if |poses| == 0 {
        return false;
      }
      calibratedYLine := Some(ShoulderLine(poses[0]));
      return true;
    }

    /**
     * `drawCameraIntoCanvas`, minus the drawing: re-run `gotPoses` on the
     * last frame, then `handleCalibration`.
     */
    method DrawFrame()
      requires Valid()
      modifies this`poses, this`isJumping, this`isDucking, this`yVelocity,
        this`sprite, this`bottom, this`hasCalibrated, this`captureTimers
      ensures Valid()
      ensures poses == old(poses) && hasCalibrated
      ensures ReadFrame(old(poses))
      ensures old(Calibration()) == Uncalibrated ==> Calibration() == CapturePending
      ensures old(Calibration()) != Uncalibrated ==> Calibration() == old(Calibration())
    {
      GotPoses(poses);
      HandleCalibration();
    }
  }

  /**
   * A webcam session from page load: the first animation frame schedules
   * the capture, PoseNet delivers `standing`, the capture timer fires, then
   * PoseNet delivers `moving`. The dino jumps exactly when the shoulders in
   * `moving` are more than the band above those in `standing`, and ducks
   * exactly when they are more than the band below.
   */
  method Session(standing: Pose, moving: Pose) returns (jumping: bool, ducking: bool)
    ensures jumping <==> ShoulderLine(standing) - ShoulderLine(moving) > SHOULDER_BAND
    ensures ducking <==> ShoulderLine(moving) - ShoulderLine(standing) > SHOULDER_BAND
  {
    var dino := new Dino();
    dino.DrawFrame();
    dino.GotPoses([standing]);
    var captured := dino.FireCaptureTimer();
    dino.GotPoses([moving]);
    jumping, ducking := dino.isJumping, dino.isDucking;
  }
}
