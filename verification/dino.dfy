/**
 * The dino of UI-inprogess/dino.js, the one the game loop in
 * UI-inprogess/script.js drives. It differs from UI-inprogess/src/dino.js:
 * a pose counts only while the nose is inside a horizontal window, a
 * neutral frame changes nothing, crouching is never undone except by
 * `setupDino`, and the baseline capture waits 7000 ms.
 */
module Dino {
  import opened Poses

  const JUMP_SPEED := 0.45
  const GRAVITY := 0.0012
  const DINO_FRAME_COUNT := 2
  const FRAME_TIME := 100.0
  /** Tolerance of the shoulder rule, in video pixels. */
  const SHOULDER_BAND := 50.0
  /** The nose must be within this horizontal window for a frame to count. */
  const NOSE_X_MIN := 200.0
  const NOSE_X_MAX := 450.0
  /** Delay of the baseline capture after the first animation frame. */
  const CAPTURE_DELAY_MS := 7000

  /** The image the dino element shows (its `src`). */
  datatype Sprite = Stationary | Run(frame: int) | Crouching | Lose

  /** Whether a frame's first pose is inside the nose window. */
  predicate InWindow(results: seq<Pose>)
  {
    results != [] && NOSE_X_MIN <= results[0][NOSE].x <= NOSE_X_MAX
  }

  class Dino {
    var isJumping: bool
    var isCrouching: bool
    var dinoFrame: int
    var currentFrameTime: real
    var yVelocity: real
    /** The `--bottom` custom property of the dino element. */
    var bottom: real
    var sprite: Sprite
    /** The most recent frame PoseNet delivered. */
    var poses: seq<Pose>
    var calibratedYLine: Option<real>
    var hasCalibrated: bool
    /** Pending `setTimeout(getPositionY, …)` timers, by delay in ms. */
    var captureTimers: seq<int>

    ghost predicate Valid()
      reads this
    {
      && 0 <= dinoFrame < DINO_FRAME_COUNT
      && |captureTimers| <= 1
      && (!hasCalibrated ==> captureTimers == [] && calibratedYLine.None?)
      && (captureTimers != [] ==> calibratedYLine.None?)
    }

    /** The calibration state machine, read off the variables. */
    function Calibration(): CalibrationState
      reads this
    {
      if !hasCalibrated then Uncalibrated
      else if captureTimers != [] then CapturePending
      else if calibratedYLine.Some? then Calibrated(calibratedYLine.value)
      else CaptureFailed
    }

    /** The module as loaded: nothing calibrated, no frame seen, standing still. */
    constructor ()
      ensures Valid()
      ensures !isJumping && !isCrouching && bottom == 0.0 && poses == []
      ensures Calibration() == Uncalibrated
    {
      isJumping, isCrouching := false, false;
      dinoFrame, currentFrameTime, yVelocity := 0, 0.0, 0.0;
      bottom, sprite := 0.0, Stationary;
      poses := [];
      calibratedYLine, hasCalibrated, captureTimers := None, false, [];
    }

    /** `setupDino`: every movement variable back to its initial value. */
    method Setup()
      requires Valid()
      modifies this`isJumping, this`isCrouching, this`dinoFrame, this`currentFrameTime,
        this`yVelocity, this`bottom
      ensures Valid()
      ensures !isJumping && !isCrouching && dinoFrame == 0
      ensures currentFrameTime == 0.0 && yVelocity == 0.0 && bottom == 0.0
    {
      isJumping, isCrouching := false, false;
      dinoFrame, currentFrameTime, yVelocity := 0, 0.0, 0.0;
      bottom := 0.0;
    }

    /** `setDinoLose`: only the image changes. */
    method SetLose()
      requires Valid()
      modifies this`sprite
      ensures Valid()
      ensures sprite == Lose
    {
      sprite := Lose;
    }

    /** `onJump`: start a jump unless one is under way. */
    method OnJump()
      requires Valid()
      modifies this`yVelocity, this`isJumping
      ensures Valid()
      ensures isJumping
      ensures yVelocity == if old(isJumping) then old(yVelocity) else JUMP_SPEED
    {
      if isJumping {
        return;
      }
      yVelocity := JUMP_SPEED;
      isJumping := true;
    }

    /** `onCrouch`: raise the crouch flag; nothing here ever lowers it. */
    method OnCrouch()
      requires Valid()
      modifies this`isCrouching
      ensures Valid()
      ensures isCrouching
    {
      if isCrouching {
        return;
      }
      isCrouching := true;
    }

    /**
     * `handleRun`: while running on the ground, flip between the two run
     * images each time FRAME_TIME of scaled time has gone by.
     */
    method HandleRun(delta: real, speedScale: real)
      requires Valid()
      modifies this`dinoFrame, this`currentFrameTime, this`sprite
      ensures Valid()
      ensures isJumping ==>
        sprite == Stationary && dinoFrame == old(dinoFrame) && currentFrameTime == old(currentFrameTime)
      ensures !isJumping && isCrouching ==>
        sprite == Crouching && dinoFrame == old(dinoFrame) && currentFrameTime == old(currentFrameTime)
      ensures !isJumping && !isCrouching ==>
        if old(currentFrameTime) >= FRAME_TIME then
          && dinoFrame == 1 - old(dinoFrame)
          && sprite == Run(dinoFrame)
          && currentFrameTime == old(currentFrameTime) - FRAME_TIME + delta * speedScale
        else
          && dinoFrame == old(dinoFrame)
          && sprite == old(sprite)
          && currentFrameTime == old(currentFrameTime) + delta * speedScale
    {
      if isJumping {
        sprite := Stationary;
        return;
      }
      if isCrouching {
        sprite := Crouching;
        return;
      }
      if currentFrameTime >= FRAME_TIME {
        dinoFrame := (dinoFrame + 1) % DINO_FRAME_COUNT;
        sprite := Run(dinoFrame);
        currentFrameTime := currentFrameTime - FRAME_TIME;
      }
      currentFrameTime := currentFrameTime + delta * speedScale;
    }

    /**
     * `handleJump`: move by the current velocity, land (and stop jumping)
     * once `--bottom` is at or below the ground, and apply gravity.
     */
    method HandleJump(delta: real)
      requires Valid()
      modifies this`bottom, this`isJumping, this`yVelocity
      ensures Valid()
      ensures !old(isJumping) ==>
        !isJumping && bottom == old(bottom) && yVelocity == old(yVelocity)
      ensures old(isJumping) ==>
        && yVelocity == old(yVelocity) - GRAVITY * delta
        && (if old(bottom) + old(yVelocity) * delta <= 0.0
            then bottom == 0.0 && !isJumping
            else bottom == old(bottom) + old(yVelocity) * delta && isJumping)
      ensures isJumping ==> bottom > 0.0
    {
      if !isJumping {
        return;
      }
      bottom := bottom + yVelocity * delta;
      if bottom <= 0.0 {
        bottom := 0.0;
        isJumping := false;
      }
      yVelocity := yVelocity - GRAVITY * delta;
    }

    /**
     * What reading a frame does to the motion state: only a frame whose
     * first pose has the nose in the window acts, a jump calling `onJump`
     * and a crouch `onCrouch`; a neutral frame, or one outside the window,
     * changes nothing.
     */
    twostate predicate ReadFrame(results: seq<Pose>)
      reads this
    {
      if !InWindow(results) then
        && isJumping == old(isJumping) && isCrouching == old(isCrouching)
        && yVelocity == old(yVelocity)
      else
        match Classify(ShoulderLine(results[0]), calibratedYLine, SHOULDER_BAND)
        case Jump =>
          && isJumping && isCrouching == old(isCrouching)
          && yVelocity == (if old(isJumping) then old(yVelocity) else JUMP_SPEED)
        case Crouch =>
          && isCrouching
          && isJumping == old(isJumping) && yVelocity == old(yVelocity)
        case Neutral =>
          && isJumping == old(isJumping) && isCrouching == old(isCrouching)
          && yVelocity == old(yVelocity)
    }

    /** `gotPoses`: remember the frame and act on it as `ReadFrame` says. */
    method GotPoses(results: seq<Pose>)
      requires Valid()
      modifies this`poses, this`isJumping, this`isCrouching, this`yVelocity
      ensures Valid()
      ensures poses == results
      ensures old(isCrouching) ==> isCrouching
      ensures ReadFrame(results)
    {
      poses := results;
      if InWindow(poses) {
        var currShoulderYLine := ShoulderLine(poses[0]);
        match Classify(currShoulderYLine, calibratedYLine, SHOULDER_BAND)
        case Jump =>
          OnJump();
        case Crouch =>
          OnCrouch();
        case Neutral =>
      }
    }

    /** `handleCalibration`: schedule the baseline capture the first time only. */
    method HandleCalibration()
      requires Valid()
      modifies this`hasCalibrated, this`captureTimers
      ensures Valid()
      ensures hasCalibrated
      ensures old(Calibration()) == Uncalibrated ==>
        Calibration() == CapturePending && captureTimers == [CAPTURE_DELAY_MS]
      ensures old(Calibration()) != Uncalibrated ==>
        Calibration() == old(Calibration()) && captureTimers == old(captureTimers)
    {
      if !hasCalibrated {
        captureTimers := captureTimers + [CAPTURE_DELAY_MS];
        hasCalibrated := true;
      }
    }

    /**
     * The capture timer fires and runs `getPositionY`: the baseline becomes
     * the first pose's shoulder line. With no pose, `poses[0]` is undefined,
     * the callback throws, and the baseline stays unset for good.
     */
    method FireCaptureTimer() returns (captured: bool)
      requires Valid()
      requires captureTimers != []
      modifies this`captureTimers, this`calibratedYLine
      ensures Valid()
      ensures captureTimers == []
      ensures captured == (poses != [])
      ensures captured ==> Calibration() == Calibrated(ShoulderLine(poses[0]))
      ensures !captured ==> Calibration() == CaptureFailed
    {
      captureTimers := captureTimers[1..];
      if |poses| == 0 {
        return false;
      }
      calibratedYLine := Some(ShoulderLine(poses[0]));
      return true;
    }

    /**
     * `drawCameraIntoCanvas`, minus the drawing: re-run `gotPoses` on the
     * last frame, then `handleCalibration`.
     */
    method DrawFrame()
      requires Valid()
      modifies this`poses, this`isJumping, this`isCrouching, this`yVelocity,
        this`hasCalibrated, this`captureTimers
      ensures Valid()
      ensures poses == old(poses) && hasCalibrated
      ensures old(isCrouching) ==> isCrouching
      ensures ReadFrame(old(poses))
      ensures old(Calibration()) == Uncalibrated ==> Calibration() == CapturePending
      ensures old(Calibration()) != Uncalibrated ==> Calibration() == old(Calibration())
    {
      GotPoses(poses);
      HandleCalibration();
    }
  }

  /**
   * Crouch is sticky: calibrate on `standing`, crouch with `low`, then
   * stand again with `standing`. The dino is still crouching at the end
   * exactly when `low` was a crouch, although the last frame is neutral.
   */
  method CrouchThenStand(standing: Pose, low: Pose) returns (crouching: bool)
    requires InWindow([standing]) && InWindow([low])
    ensures crouching <==> ShoulderLine(low) - ShoulderLine(standing) > SHOULDER_BAND
  {
    var dino := new Dino();
    dino.DrawFrame();
    dino.GotPoses([standing]);
    var captured := dino.FireCaptureTimer();
    dino.GotPoses([low]);
    dino.GotPoses([standing]);
    crouching := dino.isCrouching;
  }
}
