/**
 * The game loop of UI-inprogess/script.js: per-frame bookkeeping of time,
 * speed and score, collision between layout rectangles, the stored score
 * list with its high score, and the fit of the 100×30 world into the window.
 * Layout rectangles (`getBoundingClientRect`) and window sizes come from the
 * browser and are parameters; `localStorage` is a list of integers.
 */
module Game {
  import opened Poses
  import Dino
  import Obstacles

  const WORLD_WIDTH := 100.0
  const WORLD_HEIGHT := 30.0
  const SPEED_SCALE_INCREASE := 0.00001
  /** Score gained per millisecond. */
  const SCORE_RATE := 0.01
  const START_SPEED_SCALE := 1.3

  /** A layout box in pixels; y grows downwards. */
  datatype Rect = Rect(left: real, top: real, right: real, bottom: real)

  /** What one animation frame of `update` ended with. */
  datatype Tick =
    | FirstFrame  // only the timestamp was recorded
    | Running     // a full step; the next frame is requested
    | Lost        // a collision: `handleLose` ran and the loop stops
    | Crashed     // the dino step threw (see `Update`) and the loop stops

  /** `isCollision`: the boxes overlap on both axes, strictly. */
  predicate IsCollision(rect1: Rect, rect2: Rect)
  {
    && rect1.left < rect2.right
    && rect1.top < rect2.bottom
    && rect1.right > rect2.left
    && rect1.bottom > rect2.top
  }

  /** The order of the two boxes does not matter. */
  lemma CollisionSymmetric(a: Rect, b: Rect)
    ensures IsCollision(a, b) == IsCollision(b, a)
  {
  }

  /** A box with positive width and height. */
  predicate HasArea(r: Rect)
  {
    r.left < r.right && r.top < r.bottom
  }

  /** A point strictly inside a box. */
  predicate Inside(r: Rect, x: real, y: real)
  {
    r.left < x < r.right && r.top < y < r.bottom
  }

  function Max(a: real, b: real): real { if a < b then b else a }
  function Min(a: real, b: real): real { if a < b then a else b }

  /**
   * For boxes with area, a collision is exactly a shared interior point.
   * The test alone also reports two degenerate boxes (of zero width or
   * height) that merely touch, which is why the area is needed.
   */
  lemma CollisionIsSharedPoint(a: Rect, b: Rect)
    requires HasArea(a) && HasArea(b)
    ensures IsCollision(a, b) <==> exists x, y :: Inside(a, x, y) && Inside(b, x, y)
  {
    if IsCollision(a, b) {
      var x := (Max(a.left, b.left) + Min(a.right, b.right)) / 2.0;
      var y := (Max(a.top, b.top) + Min(a.bottom, b.bottom)) / 2.0;
      assert Inside(a, x, y) && Inside(b, x, y);
    }
  }

  /** `checkLose`: `some` over the obstacle boxes, left to right. */
  function CheckLose(obstacleRects: seq<Rect>, dinoRect: Rect): (lost: bool)
    ensures lost <==> exists i :: 0 <= i < |obstacleRects| && IsCollision(obstacleRects[i], dinoRect)
  {
    if obstacleRects == [] then false
    else IsCollision(obstacleRects[0], dinoRect) || CheckLose(obstacleRects[1..], dinoRect)
  }

  /** `Math.max` of a non-empty list. */
  function MaxOf(scores: seq<int>): (m: int)
    requires scores != []
    ensures m in scores
    ensures forall i :: 0 <= i < |scores| ==> scores[i] <= m
  {
    if |scores| == 1 then scores[0]
    else
      var rest := MaxOf(scores[1..]);
      if scores[0] < rest then rest else scores[0]
  }

  /**
   * `getHighScore`: the best stored score when it is positive, otherwise
   * nothing. An empty list gives nothing too: `Math.max()` is -Infinity.
   */
  function GetHighScore(scores: seq<int>): (best: Option<int>)
    ensures best.Some? <==> exists i :: 0 <= i < |scores| && scores[i] > 0
    ensures best.Some? ==> best.value in scores
    ensures best.Some? ==> forall i :: 0 <= i < |scores| ==> scores[i] <= best.value
  {
    if scores == [] then None
    else
      var highestScore := MaxOf(scores);
      if highestScore <= 0 then None else Some(highestScore)
  }

  /**
   * The pixels per world unit `setPixelToWorldScale` picks: the world fits
   * inside the window, keeps its 100:30 shape, and fills the window along
   * one side. A window of height 0 compares as infinitely wide in the
   * source (the ratio is Infinity or NaN), so it takes the height branch.
   */
  function PixelToWorldScale(innerWidth: real, innerHeight: real): (scale: real)
    requires innerWidth >= 0.0 && innerHeight >= 0.0
    ensures scale >= 0.0
    ensures WORLD_WIDTH * scale <= innerWidth && WORLD_HEIGHT * scale <= innerHeight
    ensures WORLD_WIDTH * scale == innerWidth || WORLD_HEIGHT * scale == innerHeight
  {
    if innerHeight > 0.0 && innerWidth / innerHeight < WORLD_WIDTH / WORLD_HEIGHT then
      WideByHeight(innerWidth, innerHeight);
      innerWidth / WORLD_WIDTH
    else
      TallByHeight(innerWidth, innerHeight);
      innerHeight / WORLD_HEIGHT
  }

  /** A window narrower than the world's shape has room below a full-width world. */
  lemma WideByHeight(innerWidth: real, innerHeight: real)
    requires innerWidth >= 0.0 && innerHeight > 0.0
    requires innerWidth / innerHeight < WORLD_WIDTH / WORLD_HEIGHT
    ensures WORLD_HEIGHT * (innerWidth / WORLD_WIDTH) < innerHeight
  {
    assert innerWidth == (innerWidth / innerHeight) * innerHeight;
    assert innerWidth < (WORLD_WIDTH / WORLD_HEIGHT) * innerHeight;
  }

  /** Otherwise a full-height world leaves room beside it. */
  lemma TallByHeight(innerWidth: real, innerHeight: real)
    requires innerWidth >= 0.0 && innerHeight >= 0.0
    requires !(innerHeight > 0.0 && innerWidth / innerHeight < WORLD_WIDTH / WORLD_HEIGHT)
    ensures WORLD_WIDTH * (innerHeight / WORLD_HEIGHT) <= innerWidth
  {
    if innerHeight > 0.0 {
      assert innerWidth == (innerWidth / innerHeight) * innerHeight;
      assert innerWidth >= (WORLD_WIDTH / WORLD_HEIGHT) * innerHeight;
    }
  }

  /** The module-level state of script.js, with the dino and obstacle modules it drives. */
  class Game {
    const dino: Dino.Dino
    const field: Obstacles.Field
    /** The timestamp of the last full step; `None` is `null`/`undefined`. */
    var lastTime: Option<real>
    var speedScale: real
    var score: real
    /** What the score element shows. */
    var scoreText: int
    /** What the high-score element shows, once set. */
    var highScoreText: Option<int>
    /** The `"Score"` list in `localStorage`. */
    var storedScores: seq<int>
    /** The world element's size in pixels. */
    var worldWidth: real
    var worldHeight: real

    ghost predicate Valid()
      reads this, dino, field
    {
      && dino.Valid() && field.Valid()
      && speedScale >= START_SPEED_SCALE && score >= 0.0
    }

    /**
     * The page as loaded, with the window's size and the scores already in
     * storage. Speed and score stand at their start values; the loop only
     * runs after `HandleStart`, which sets them.
     */
    constructor (innerWidth: real, innerHeight: real, stored: seq<int>)
      requires innerWidth >= 0.0 && innerHeight >= 0.0
      ensures Valid() && fresh(dino) && fresh(field)
      ensures lastTime.None? && storedScores == stored && highScoreText.None?
      ensures worldWidth <= innerWidth && worldHeight <= innerHeight
    {
      dino := new Dino.Dino();
      field := new Obstacles.Field();
      lastTime := None;
      speedScale, score, scoreText := START_SPEED_SCALE, 0.0, 0;
      highScoreText := None;
      storedScores := stored;
      var scale := PixelToWorldScale(innerWidth, innerHeight);
      worldWidth, worldHeight := WORLD_WIDTH * scale, WORLD_HEIGHT * scale;
    }

    /** `setPixelToWorldScale`, run at load and on every resize. */
    method SetPixelToWorldScale(innerWidth: real, innerHeight: real)
      requires innerWidth >= 0.0 && innerHeight >= 0.0
      modifies this`worldWidth, this`worldHeight
      ensures worldWidth <= innerWidth && worldHeight <= innerHeight
      ensures worldWidth == innerWidth || worldHeight == innerHeight
      ensures worldWidth * WORLD_HEIGHT == worldHeight * WORLD_WIDTH
    {
      var worldToPixelScale := PixelToWorldScale(innerWidth, innerHeight);
      worldWidth := WORLD_WIDTH * worldToPixelScale;
      worldHeight := WORLD_HEIGHT * worldToPixelScale;
    }

    /** `updateSpeedScale`: the game speeds up with elapsed time. */
    method UpdateSpeedScale(delta: real)
      requires Valid() && delta >= 0.0
      modifies this`speedScale
      ensures Valid()
      ensures speedScale == old(speedScale) + delta * SPEED_SCALE_INCREASE
      ensures speedScale >= old(speedScale)
    {
      speedScale := speedScale + delta * SPEED_SCALE_INCREASE;
    }

    /** `updateScore`: the score grows with elapsed time and shows its floor. */
    method UpdateScore(delta: real)
      requires Valid() && delta >= 0.0
      modifies this`score, this`scoreText
      ensures Valid()
      ensures score == old(score) + delta * SCORE_RATE
      ensures score >= old(score)
      ensures scoreText as real <= score < scoreText as real + 1.0
    {
      score := score + delta * SCORE_RATE;
      scoreText := score.Floor;
    }

    /** `storeScore`: append the whole points of this run to the stored list. */
    method StoreScore()
      modifies this`storedScores
      ensures storedScores == old(storedScores) + [score.Floor]
      ensures |storedScores| == |old(storedScores)| + 1
      ensures storedScores[..|old(storedScores)|] == old(storedScores)
    {
      var getScore := score.Floor;
      storedScores := storedScores + [getScore];
    }

    /** `handleLose`: the lose image and the score stored; the loop is not resumed. */
    method HandleLose()
      requires Valid()
      modifies this`storedScores, dino`sprite
      ensures Valid()
      ensures dino.sprite == Dino.Lose
      ensures storedScores == old(storedScores) + [score.Floor]
    {
      dino.SetLose();
      StoreScore();
    }

    /**
     * `handleStart`: a fresh run. Time, speed and score restart, the dino and
     * the obstacles are set up again, and a positive stored high score is shown.
     */
    method HandleStart()
      requires Valid()
      modifies this`lastTime, this`speedScale, this`score, this`highScoreText,
        dino`isJumping, dino`isCrouching, dino`dinoFrame, dino`currentFrameTime,
        dino`yVelocity, dino`bottom, field
      ensures Valid()
      ensures lastTime.None? && speedScale == START_SPEED_SCALE && score == 0.0
      ensures !dino.isJumping && !dino.isCrouching && dino.bottom == 0.0
      ensures dino.dinoFrame == 0 && dino.yVelocity == 0.0 && dino.currentFrameTime == 0.0
      ensures field.obstacles == [] && field.nextObstacleTime == Obstacles.OBSTACLE_INTERVAL_MIN as real
      ensures highScoreText ==
        if GetHighScore(storedScores).Some? then GetHighScore(storedScores) else old(highScoreText)
    {
      lastTime := None;
      speedScale := START_SPEED_SCALE;
      score := 0.0;
      dino.Setup();
      field.Setup();
      var best := GetHighScore(storedScores);
      if best.Some? {
        highScoreText := best;
      }
    }

    /**
     * `update` for the animation frame at `time`. The first frame of a run
     * only records the time. Otherwise the step is: the dino
     * (`handleRun`, `handleJump`, then `handleCrouch`, which reads a
     * `delta` that is not in its scope and so throws while crouching), the
     * obstacles, the speed, the score, and the collision test against the
     * layout boxes the browser reports afterwards. The ground's own step is
     * not part of this model.
     */
    method Update(time: real, kindRoll: real, spriteRoll: real, intervalRoll: real,
                  obstacleRects: seq<Rect>, dinoRect: Rect) returns (tick: Tick)
      requires Valid()
      requires lastTime.Some? ==> time >= lastTime.value
      requires 0.0 <= kindRoll < 1.0 && 0.0 <= spriteRoll < 1.0 && 0.0 <= intervalRoll < 1.0
      modifies this`lastTime, this`speedScale, this`score, this`scoreText, this`storedScores,
        dino`dinoFrame, dino`currentFrameTime, dino`sprite, dino`bottom, dino`isJumping,
        dino`yVelocity, field
      ensures Valid()
      ensures old(lastTime).None? ==>
        && tick == FirstFrame && lastTime == Some(time)
        && speedScale == old(speedScale) && score == old(score) && scoreText == old(scoreText)
        && storedScores == old(storedScores)
        && unchanged(dino) && unchanged(field)
      ensures tick == Crashed <==> old(lastTime).Some? && old(dino.isCrouching)
      ensures tick == Crashed ==>
        && lastTime == old(lastTime) && speedScale == old(speedScale) && score == old(score)
        && scoreText == old(scoreText) && storedScores == old(storedScores) && unchanged(field)
      ensures old(lastTime).Some? ==>
        var delta := time - old(lastTime).value;
        && dino.yVelocity ==
             (if old(dino.isJumping) then old(dino.yVelocity) - Dino.GRAVITY * delta else old(dino.yVelocity))
        && dino.isJumping == (old(dino.isJumping) && old(dino.bottom) + old(dino.yVelocity) * delta > 0.0)
        && dino.bottom ==
             (if dino.isJumping then old(dino.bottom) + old(dino.yVelocity) * delta
              else if old(dino.isJumping) then 0.0
              else old(dino.bottom))
      ensures tick == Running || tick == Lost ==>
        var delta := time - old(lastTime).value;
        && speedScale == old(speedScale) + delta * SPEED_SCALE_INCREASE
        && score == old(score) + delta * SCORE_RATE
        && scoreText == score.Floor
      ensures tick == Lost <==>
        old(lastTime).Some? && !old(dino.isCrouching) && CheckLose(obstacleRects, dinoRect)
      ensures tick == Lost ==>
        && lastTime == old(lastTime)
        && storedScores == old(storedScores) + [score.Floor]
        && dino.sprite == Dino.Lose
      ensures tick == Running ==>
        lastTime == Some(time) && storedScores == old(storedScores)
    {
      if lastTime.None? {
        lastTime := Some(time);
        return FirstFrame;
      }
      var delta := time - lastTime.value;

      dino.HandleRun(delta, speedScale);
      dino.HandleJump(delta);
      if dino.isCrouching {
        return Crashed;
      }
      field.Update(delta, speedScale, kindRoll, spriteRoll, intervalRoll);
      UpdateSpeedScale(delta);
      UpdateScore(delta);
      if CheckLose(obstacleRects, dinoRect) {
        HandleLose();
        return Lost;
      }

      lastTime := Some(time);
      return Running;
    }
  }
}
