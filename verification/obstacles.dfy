/**
 * The obstacle scheduler of UI-inprogess/obstacles.js. The obstacles on the
 * page are a sequence in document order; each game-loop step moves them all
 * left, drops those that have scrolled off, and, when the countdown has run
 * out, appends a fresh obstacle and draws a new countdown. `Math.random()`
 * results are parameters in [0, 1).
 */
module Obstacles {
  import opened Poses

  const SPEED := 0.05
  const OBSTACLE_INTERVAL_MIN := 1500
  const OBSTACLE_INTERVAL_MAX := 2500
  /** `--left` of a new obstacle, and the value at or below which one is removed. */
  const SPAWN_LEFT := 100.0
  const DESPAWN_LEFT := -100.0
  /** `--top` of a flying obstacle; ground obstacles never set it. */
  const FLYING_TOP := 0.5
  /** Below this roll a new obstacle is a ground one. */
  const GROUND_CHANCE := 0.5

  datatype Kind = Ground | Flying

  /** An obstacle element: its kind, its image index, and its `--left`/`--top`. */
  datatype Obstacle = Obstacle(kind: Kind, sprite: int, left: real, top: Option<real>)

  /** How many images each kind picks from. */
  function SpriteCount(k: Kind): nat
  {
    match k
    case Ground => 3
    case Flying => 4
  }

  /** An obstacle as it can be on the track: spawned, not yet scrolled off. */
  predicate Placed(o: Obstacle)
  {
    && DESPAWN_LEFT < o.left <= SPAWN_LEFT
    && 0 <= o.sprite < SpriteCount(o.kind)
    && o.top == (if o.kind == Flying then Some(FLYING_TOP) else None)
  }

  /** `randomNumberBetween(min, max)` for `Math.random()` returning `r`. */
  function RandomNumberBetween(min: int, max: int, r: real): (n: int)
    requires min <= max && 0.0 <= r < 1.0
    ensures min <= n <= max
  {
    var width := (max - min + 1) as real;
    ScaledBelow(r, width);
    (r * width + min as real).Floor
  }

  /** `Math.floor(Math.random() * count)`: an index into a list of `count` images. */
  function RandomIndex(count: nat, r: real): (i: int)
    requires count > 0 && 0.0 <= r < 1.0
    ensures 0 <= i < count
  {
    var width := count as real;
    ScaledBelow(r, width);
    (r * width).Floor
  }

  /** A fraction of a positive width stays below the width. */
  lemma ScaledBelow(r: real, width: real)
    requires 0.0 <= r < 1.0 && width > 0.0
    ensures 0.0 <= r * width < width
  {
    assert width - r * width == (1.0 - r) * width;
  }

  /** `createGroundObstacle`. */
  function CreateGroundObstacle(spriteRoll: real): (o: Obstacle)
    requires 0.0 <= spriteRoll < 1.0
    ensures o.kind == Ground && Placed(o) && o.left == SPAWN_LEFT
  {
    Obstacle(Ground, RandomIndex(SpriteCount(Ground), spriteRoll), SPAWN_LEFT, None)
  }

  /** `createFlyingObstacle`. */
  function CreateFlyingObstacle(spriteRoll: real): (o: Obstacle)
    requires 0.0 <= spriteRoll < 1.0
    ensures o.kind == Flying && Placed(o) && o.left == SPAWN_LEFT
  {
    Obstacle(Flying, RandomIndex(SpriteCount(Flying), spriteRoll), SPAWN_LEFT, Some(FLYING_TOP))
  }

  /** `createRandomObstacle`: ground below an even roll, flying otherwise. */
  function CreateRandomObstacle(kindRoll: real, spriteRoll: real): (o: Obstacle)
    requires 0.0 <= kindRoll < 1.0 && 0.0 <= spriteRoll < 1.0
    ensures o.kind == Ground <==> kindRoll < GROUND_CHANCE
    ensures o.left == SPAWN_LEFT && Placed(o)
    ensures o.top == if kindRoll < GROUND_CHANCE then None else Some(FLYING_TOP)
  {
    if kindRoll < GROUND_CHANCE then CreateGroundObstacle(spriteRoll)
    else CreateFlyingObstacle(spriteRoll)
  }

  /** One obstacle moved `step` to the left. */
  function Shift(o: Obstacle, step: real): Obstacle
  {
    o.(left := o.left - step)
  }

  /**
   * The moving half of `updateObstacles`, as a specification: every obstacle
   * moved `step` to the left, those at or past DESPAWN_LEFT dropped, the
   * rest kept in order.
   */
  function Advance(obs: seq<Obstacle>, step: real): seq<Obstacle>
  {
    if obs == [] then []
    else
      var moved := Shift(obs[0], step);
      (if moved.left <= DESPAWN_LEFT then [] else [moved]) + Advance(obs[1..], step)
  }

  /** Advancing a concatenation advances each part, keeping their order. */
  lemma {:induction false} AdvanceAppend(a: seq<Obstacle>, b: seq<Obstacle>, step: real)
    ensures Advance(a + b, step) == Advance(a, step) + Advance(b, step)
  {
    if a == [] {
      assert a + b == b;
    } else {
      assert (a + b)[1..] == a[1..] + b;
      AdvanceAppend(a[1..], b, step);
    }
  }

  /**
   * What survives an update: exactly the moved obstacles that are still
   * right of DESPAWN_LEFT.
   */
  lemma {:induction false} AdvanceMembers(obs: seq<Obstacle>, step: real, o: Obstacle)
    ensures o in Advance(obs, step) <==>
      exists i :: 0 <= i < |obs| && o == Shift(obs[i], step) && o.left > DESPAWN_LEFT
  {
    if obs != [] {
      AdvanceMembers(obs[1..], step, o);
      if o in Advance(obs[1..], step) {
        var i :| 0 <= i < |obs[1..]| && o == Shift(obs[1..][i], step) && o.left > DESPAWN_LEFT;
        assert o == Shift(obs[i + 1], step);
      }
      if exists i :: 0 <= i < |obs| && o == Shift(obs[i], step) && o.left > DESPAWN_LEFT {
        var i :| 0 <= i < |obs| && o == Shift(obs[i], step) && o.left > DESPAWN_LEFT;
        if i > 0 {
          assert o == Shift(obs[1..][i - 1], step);
        }
      }
    }
  }

  /** Nothing is ever added by moving, so an update never grows the list by itself. */
  lemma {:induction false} AdvanceShrinks(obs: seq<Obstacle>, step: real)
    ensures |Advance(obs, step)| <= |obs|
  {
    if obs != [] {
      AdvanceShrinks(obs[1..], step);
    }
  }

  /** When every obstacle stays on the track, each is moved and none is dropped. */
  lemma {:induction false} AdvanceKeepsAll(obs: seq<Obstacle>, step: real)
    requires forall i :: 0 <= i < |obs| ==> obs[i].left - step > DESPAWN_LEFT
    ensures |Advance(obs, step)| == |obs|
    ensures forall i :: 0 <= i < |obs| ==> Advance(obs, step)[i] == Shift(obs[i], step)
  {
    if obs != [] {
      AdvanceKeepsAll(obs[1..], step);
      assert Advance(obs, step) == [Shift(obs[0], step)] + Advance(obs[1..], step);
    }
  }

  /** Moving left by a non-negative step keeps every survivor on the track. */
  lemma AdvancePlaced(obs: seq<Obstacle>, step: real)
    requires step >= 0.0
    requires forall i :: 0 <= i < |obs| ==> Placed(obs[i])
    ensures forall i :: 0 <= i < |Advance(obs, step)| ==> Placed(Advance(obs, step)[i])
  {
    var r := Advance(obs, step);
    forall k | 0 <= k < |r|
      ensures Placed(r[k])
    {
      AdvanceMembers(obs, step, r[k]);
    }
  }

  /**
   * The `forEach` of `updateObstacles`: visit the obstacles in document
   * order, move each one, and keep those not yet scrolled off.
   */
  method MoveAll(current: seq<Obstacle>, step: real) returns (kept: seq<Obstacle>)
    ensures kept == Advance(current, step)
  {
    kept := [];
    var i := 0;
    while i < |current|
      invariant 0 <= i <= |current|
      invariant kept == Advance(current[..i], step)
    {
      var moved := Shift(current[i], step);
      AdvanceAppend(current[..i], [current[i]], step);
      assert current[..i + 1] == current[..i] + [current[i]];
      if moved.left > DESPAWN_LEFT {
        kept := kept + [moved];
      }
      i := i + 1;
    }
    assert current[..i] == current;
  }

  /** The obstacle list and the spawn countdown of obstacles.js. */
  class Field {
    /** Milliseconds until the next obstacle is due. */
    var nextObstacleTime: real
    /** The `[data-obstacle]` elements, in document order. */
    var obstacles: seq<Obstacle>

    ghost predicate Valid()
      reads this
    {
      forall i :: 0 <= i < |obstacles| ==> Placed(obstacles[i])
    }

    /** The module as loaded; the countdown gets its real start value in `Setup`. */
    constructor ()
      ensures Valid() && obstacles == [] && nextObstacleTime == OBSTACLE_INTERVAL_MIN as real
    {
      nextObstacleTime := OBSTACLE_INTERVAL_MIN as real;
      obstacles := [];
    }

    /** `setupObstacles`: no obstacles, first one due after the minimum interval. */
    method Setup()
      modifies this
      ensures Valid()
      ensures obstacles == [] && nextObstacleTime == OBSTACLE_INTERVAL_MIN as real
    {
      nextObstacleTime := OBSTACLE_INTERVAL_MIN as real;
      obstacles := [];
    }

    /**
     * `updateObstacles`: move and prune every obstacle, spawn one when the
     * countdown is spent (resetting it to a random interval shortened by the
     * speed scale), then count down by `delta`.
     */
    method Update(delta: real, speedScale: real, kindRoll: real, spriteRoll: real, intervalRoll: real)
      requires Valid()
      requires delta >= 0.0 && speedScale > 0.0
      requires 0.0 <= kindRoll < 1.0 && 0.0 <= spriteRoll < 1.0 && 0.0 <= intervalRoll < 1.0
      modifies this
      ensures Valid()
      ensures old(nextObstacleTime) > 0.0 ==>
        && obstacles == Advance(old(obstacles), delta * speedScale * SPEED)
        && nextObstacleTime == old(nextObstacleTime) - delta
      ensures old(nextObstacleTime) <= 0.0 ==>
        && obstacles == Advance(old(obstacles), delta * speedScale * SPEED)
                        + [CreateRandomObstacle(kindRoll, spriteRoll)]
        && nextObstacleTime ==
             RandomNumberBetween(OBSTACLE_INTERVAL_MIN, OBSTACLE_INTERVAL_MAX, intervalRoll) as real
             / speedScale - delta
    {
      var step := delta * speedScale * SPEED;
      var kept := MoveAll(obstacles, step);
      assert step >= 0.0;
      AdvancePlaced(obstacles, step);
      obstacles := kept;

      if nextObstacleTime <= 0.0 {
        obstacles := obstacles + [CreateRandomObstacle(kindRoll, spriteRoll)];
        nextObstacleTime :=
          RandomNumberBetween(OBSTACLE_INTERVAL_MIN, OBSTACLE_INTERVAL_MAX, intervalRoll) as real / speedScale;
      }
      nextObstacleTime := nextObstacleTime - delta;
    }
  }
}
