/**
 * The stand-alone pose experiment of sketch.js. It tracks the nose rather
 * than the shoulders: a frame is read only while the nose is in a horizontal
 * window, and a jump or crouch is reported when the nose is more than 70 px
 * from the calibrated nose line. Detection only reports (it logs); it never
 * changes state. Calibration is one-shot but can be re-armed.
 */
module Sketch {
  import opened Poses

  /** Tolerance of the nose rule, in video pixels. */
  const NOSE_BAND := 70.0
  /** The nose must be within this horizontal window for a frame to count. */
  const NOSE_X_MIN := 100.0
  const NOSE_X_MAX := 550.0
  /** Delay of the baseline capture after it is scheduled. */
  const CAPTURE_DELAY_MS := 7000

  /**
   * `handleJump`: `None` when nothing is read (no pose, or the nose outside
   * the window); otherwise the gesture the nose height shows against the
   * calibrated nose line, tested the way sketch.js writes it.
   */
  function HandleJump(poses: seq<Pose>, calibrateNoseLineY: Option<real>): (g: Option<Gesture>)
    ensures g.Some? <==> poses != [] && NOSE_X_MIN <= poses[0][NOSE].x <= NOSE_X_MAX
    ensures g.Some? ==> g.value == Classify(poses[0][NOSE].y, calibrateNoseLineY, NOSE_BAND)
  {
    if |poses| > 0 && NOSE_X_MIN <= poses[0][NOSE].x <= NOSE_X_MAX then
      var headY := poses[0][NOSE].y;
      var jumpDetected := calibrateNoseLineY.Some? && calibrateNoseLineY.value > headY + NOSE_BAND;
      var crouchDetected := calibrateNoseLineY.Some? && calibrateNoseLineY.value < headY - NOSE_BAND;
      if jumpDetected then Some(Jump)
      else if crouchDetected then Some(Crouch)
      else Some(Neutral)
    else
      None
  }

  /** The globals of sketch.js that calibration and detection share. */
  class Tracker {
    /** The most recent frame PoseNet delivered. */
    var poses: seq<Pose>
    var calibratedYLine: Option<real>
    var calibrateNoseLineY: Option<real>
    var hasCalibrated: bool
    /** Pending `setTimeout(getPositionY, …)` timers, by delay in ms. */
    var captureTimers: seq<int>

    /** The script as loaded: nothing calibrated, no frame seen. */
    constructor ()
      ensures poses == [] && captureTimers == []
      ensures calibratedYLine.None? && calibrateNoseLineY.None? && !hasCalibrated
    {
      poses := [];
      calibratedYLine, calibrateNoseLineY := None, None;
      hasCalibrated, captureTimers := false, [];
    }

    /** `gotPoses`: only remembers the frame. */
    method GotPoses(results: seq<Pose>)
      modifies this`poses
      ensures poses == results
    {
      poses := results;
    }

    /** `handleCalibration`: schedule a capture unless one was already scheduled since the last re-arm. */
    method HandleCalibration()
      modifies this`hasCalibrated, this`captureTimers
      ensures hasCalibrated
      ensures captureTimers ==
        if old(hasCalibrated) then old(captureTimers) else old(captureTimers) + [CAPTURE_DELAY_MS]
    {
      if !hasCalibrated {
        captureTimers := captureTimers + [CAPTURE_DELAY_MS];
        hasCalibrated := true;
      }
    }

    /**
     * The oldest capture timer fires and runs `getPositionY`: the nose line
     * becomes the first pose's nose height and the shoulder line its
     * shoulders' mean. With no pose the callback throws before assigning.
     */
    method FireCaptureTimer() returns (captured: bool)
      requires captureTimers != []
      modifies this`captureTimers, this`calibratedYLine, this`calibrateNoseLineY
      ensures captureTimers == old(captureTimers)[1..]
      ensures captured == (poses != [])
      ensures captured ==>
        calibrateNoseLineY == Some(poses[0][NOSE].y) && calibratedYLine == Some(ShoulderLine(poses[0]))
      ensures !captured ==>
        calibrateNoseLineY == old(calibrateNoseLineY) && calibratedYLine == old(calibratedYLine)
    {
      captureTimers := captureTimers[1..];
      if |poses| == 0 {
        return false;
      }
      calibrateNoseLineY := Some(poses[0][NOSE].y);
      calibratedYLine := Some(ShoulderLine(poses[0]));
      return true;
    }

    /** `restartCalibration`: re-arm, so the next `handleCalibration` schedules afresh. */
    method RestartCalibration()
      modifies this`hasCalibrated
      ensures !hasCalibrated
    {
      hasCalibrated := false;
    }

    /**
     * `drawCameraIntoCanvas`, minus the drawing: `handleCalibration`, then
     * `handleJump` on the last frame, whose reading is returned.
     */
    method DrawFrame() returns (g: Option<Gesture>)
      modifies this`hasCalibrated, this`captureTimers
      ensures hasCalibrated
      ensures captureTimers ==
        if old(hasCalibrated) then old(captureTimers) else old(captureTimers) + [CAPTURE_DELAY_MS]
      ensures g == HandleJump(poses, calibrateNoseLineY)
    {
      HandleCalibration();
      g := HandleJump(poses, calibrateNoseLineY);
    }
  }

  /**
   * After a re-arm, the next `handleCalibration` schedules exactly one more
   * capture, and a second call schedules nothing.
   */
  method RestartThenCalibrate(t: Tracker)
    modifies t`hasCalibrated, t`captureTimers
    ensures t.hasCalibrated
    ensures t.captureTimers == old(t.captureTimers) + [CAPTURE_DELAY_MS]
  {
    t.RestartCalibration();
    t.HandleCalibration();
    t.HandleCalibration();
  }
}
