/**
 * Pose frames as the PoseNet callback delivers them, and the band rule that
 * every gesture recogniser in the game uses: compare a current vertical
 * position with a calibrated baseline, with a fixed tolerance band in pixels.
 */
module Poses {

  /** A value that may be missing; JavaScript's `undefined` is `None`. */
  datatype Option<T> = None | Some(value: T)

  /** One PoseNet keypoint: position in video pixels and detection confidence. */
  datatype Keypoint = Keypoint(x: real, y: real, score: real)

  /** PoseNet always reports the same 17 body parts, in a fixed order. */
  const KEYPOINT_COUNT := 17
  const NOSE := 0
  const LEFT_SHOULDER := 5
  const RIGHT_SHOULDER := 6

  /** The keypoints of one detected person. */
  type Pose = ks: seq<Keypoint> | |ks| == KEYPOINT_COUNT
    witness seq(KEYPOINT_COUNT, _ => Keypoint(0.0, 0.0, 0.0))

  /** What a frame asks the dino to do. */
  datatype Gesture = Jump | Crouch | Neutral

  /** Where a one-shot baseline capture stands. */
  datatype CalibrationState =
    | Uncalibrated          // no capture scheduled yet
    | CapturePending        // the capture timer is scheduled and has not fired
    | Calibrated(line: real)
    | CaptureFailed         // the timer fired with no pose; nothing retries

  /** The mean height of the two shoulders: the point midway between them. */
  function ShoulderLine(p: Pose): (y: real)
    ensures y - p[LEFT_SHOULDER].y == p[RIGHT_SHOULDER].y - y
    ensures p[LEFT_SHOULDER].y <= y <= p[RIGHT_SHOULDER].y
         || p[RIGHT_SHOULDER].y <= y <= p[LEFT_SHOULDER].y
  {
    (p[LEFT_SHOULDER].y + p[RIGHT_SHOULDER].y) / 2.0
  }

  /**
   * The jump/crouch test as the game writes it: a jump when the current line
   * is above `baseline - band`, a crouch when it is below `baseline + band`,
   * the jump test first. An undefined baseline makes both comparisons false
   * (arithmetic on `undefined` gives NaN), so the frame is neutral.
   * Screen y grows downwards: a smaller y is higher up.
   */
  function Classify(current: real, baseline: Option<real>, band: real): (g: Gesture)
    requires band >= 0.0
    ensures g == Jump <==> baseline.Some? && baseline.value - current > band
    ensures g == Crouch <==> baseline.Some? && current - baseline.value > band
    ensures g == Neutral <==>
      baseline.None? || (baseline.value - band <= current <= baseline.value + band)
  {
    var jumpDetected := baseline.Some? && current < baseline.value - band;
    var crouchDetected := baseline.Some? && current > baseline.value + band;
    if jumpDetected then Jump
    else if crouchDetected then Crouch
    else Neutral
  }

  /**
   * Moving further away from the baseline never turns a jump into anything
   * else, and likewise for a crouch: the classification is monotone in the
   * distance from the baseline.
   */
  lemma ClassifyMonotone(current: real, further: real, baseline: real, band: real)
    requires band >= 0.0
    ensures Classify(current, Some(baseline), band) == Jump && further <= current
      ==> Classify(further, Some(baseline), band) == Jump
    ensures Classify(current, Some(baseline), band) == Crouch && further >= current
      ==> Classify(further, Some(baseline), band) == Crouch
  {
  }
}
