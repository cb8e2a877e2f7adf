/**
 * Pure collision tests and the kinematic step of the seconds-based game
 * (variant A). Everything here is a total function of its arguments; the
 * random draw of the gap placement is a parameter `r` in [0, 1).
 */
module GamePhysics {
  import opened Wrappers
  import opened GameTypes

  /** The bird's bounding box and the pipe's column overlap horizontally (strictly). */
  predicate InColumn(bird: Bird, pipe: Pipe) {
    bird.x + bird.radius > pipe.x && bird.x - bird.radius < pipe.x + pipe.width
  }

  /** The bird's bounding box lies inside the gap; touching an edge still fits. */
  predicate FitsGap(bird: Bird, pipe: Pipe) {
    pipe.gapY <= bird.y - bird.radius && bird.y + bird.radius <= pipe.gapY + pipe.gapHeight
  }

  /** True when the bird's box touches the solid part of the pipe pair. */
  function CheckBirdPipeCollision(bird: Bird, pipe: Pipe): (hit: bool)
    ensures hit <==> InColumn(bird, pipe) && !FitsGap(bird, pipe)
  {
    var birdLeft := bird.x - bird.radius;
    var birdRight := bird.x + bird.radius;
    var birdTop := bird.y - bird.radius;
    var birdBottom := bird.y + bird.radius;
    var pipeLeft := pipe.x;
    var pipeRight := pipe.x + pipe.width;
    var gapTop := pipe.gapY;
    var gapBottom := pipe.gapY + pipe.gapHeight;
    if birdRight > pipeLeft && birdLeft < pipeRight then
      if birdTop < gapTop || birdBottom > gapBottom then true else false
    else
      false
  }

  /** The scenarios of the unit tests: a pipe at x 90, 60 wide, gap 200..350, bird at x 100 with radius 15. */
  lemma PipeCollisionScenarios()
    ensures CheckBirdPipeCollision(Bird(100.0, 180.0, 0.0, 0.0, 15.0), Pipe(90.0, 200.0, 150.0, 60.0, false))
    ensures CheckBirdPipeCollision(Bird(100.0, 370.0, 0.0, 0.0, 15.0), Pipe(90.0, 200.0, 150.0, 60.0, false))
    ensures !CheckBirdPipeCollision(Bird(100.0, 275.0, 0.0, 0.0, 15.0), Pipe(90.0, 200.0, 150.0, 60.0, false))
    ensures forall y: real :: !CheckBirdPipeCollision(Bird(100.0, y, 0.0, 0.0, 15.0), Pipe(150.0, 200.0, 150.0, 60.0, false))
  {
  }

  /** Ground first, then ceiling; both are reported as collisions. */
  function CheckBirdBoundaryCollision(bird: Bird, config: GameConfig): (r: CollisionResult)
    ensures r.collided <==> r.kind.Some?
    ensures r.kind == Some(Ground) <==> bird.y + bird.radius >= config.canvasHeight
    ensures r.kind == Some(Ceiling) <==> bird.y + bird.radius < config.canvasHeight && bird.y - bird.radius <= 0.0
    ensures r.kind != Some(PipeCollision)
  {
    if bird.y + bird.radius >= config.canvasHeight then
      CollisionResult(true, Some(Ground))
    else if bird.y - bird.radius <= 0.0 then
      CollisionResult(true, Some(Ceiling))
    else
      CollisionResult(false, None)
  }

  /** Any colliding pipe wins; only when no pipe collides is the boundary consulted. */
  function CheckAllCollisions(bird: Bird, pipes: seq<Pipe>, config: GameConfig): (r: CollisionResult)
    ensures r.kind == Some(PipeCollision) <==>
              exists i :: 0 <= i < |pipes| && CheckBirdPipeCollision(bird, pipes[i])
    ensures r.kind == Some(PipeCollision) ==> r.collided
    ensures r.kind != Some(PipeCollision) ==> r == CheckBirdBoundaryCollision(bird, config)
    decreases |pipes|
  {
    if |pipes| == 0 then
      CheckBirdBoundaryCollision(bird, config)
    else if CheckBirdPipeCollision(bird, pipes[0]) then
      CollisionResult(true, Some(PipeCollision))
    else
      var r := CheckAllCollisions(bird, pipes[1..], config);
      assert forall i :: 1 <= i < |pipes| ==> pipes[i] == pipes[1..][i - 1];
      r
  }

  function Min(a: real, b: real): real { if a <= b then a else b }
  function Max(a: real, b: real): real { if a >= b then a else b }

  /** The visual tilt for a velocity: five hundredths of it, kept within half a radian. */
  function Tilt(velocity: real): real {
    Min(Max(velocity * 0.05, -0.5), 0.5)
  }

  /** Semi-implicit Euler: the new velocity is used to move the bird. */
  function UpdateBirdPhysics(bird: Bird, deltaTime: real, config: GameConfig): (b: Bird)
    ensures b.velocity == bird.velocity + config.gravity * deltaTime
    ensures b.y == bird.y + b.velocity * deltaTime
    ensures b.x == bird.x && b.radius == bird.radius
    ensures -0.5 <= b.rotation <= 0.5
    ensures b.velocity > 0.0 ==> b.rotation > 0.0
    ensures b.velocity < 0.0 ==> b.rotation < 0.0
    ensures -10.0 <= b.velocity <= 10.0 ==> b.rotation == b.velocity * 0.05
    ensures b.velocity >= 10.0 ==> b.rotation == 0.5
    ensures b.velocity <= -10.0 ==> b.rotation == -0.5
  {
    var newVelocity := bird.velocity + config.gravity * deltaTime;
    var newY := bird.y + newVelocity * deltaTime;
    bird.(y := newY, velocity := newVelocity, rotation := Tilt(newVelocity))
  }

  /** The gap top for a random draw `r`: 50 plus `r` times the free span. */
  function GeneratePipeGap(config: GameConfig, r: real): (gapY: real)
    requires 0.0 <= r < 1.0
    ensures config.canvasHeight - config.pipeGap - 100.0 > 0.0 ==>
              50.0 <= gapY < config.canvasHeight - config.pipeGap - 50.0
    ensures config.canvasHeight - config.pipeGap - 100.0 == 0.0 ==> gapY == 50.0
    ensures config.canvasHeight - config.pipeGap - 100.0 < 0.0 ==>
              config.canvasHeight - config.pipeGap - 50.0 < gapY <= 50.0
  {
    var span := config.canvasHeight - config.pipeGap - 100.0;
    SpanProduct(r, span);
    r * span + 50.0
  }

  lemma SpanProduct(r: real, span: real)
    requires 0.0 <= r < 1.0
    ensures span > 0.0 ==> 0.0 <= r * span < span
    ensures span < 0.0 ==> span < r * span <= 0.0
  {
    if span > 0.0 {
      assert r * span < 1.0 * span;
    } else if span < 0.0 {
      assert r * (-span) < 1.0 * (-span);
    }
  }

  /**
   * The unit test's upper bound `canvasHeight - pipeGap - 100` is not implied:
   * with the tested 600-high canvas and 150 gap a draw of 0.9 lands at 365.
   */
  lemma GapCanExceedTestedBound(config: GameConfig)
    requires config.canvasHeight == 600.0 && config.pipeGap == 150.0
    ensures GeneratePipeGap(config, 0.9) > config.canvasHeight - config.pipeGap - 100.0
  {
  }

  /** Elapsed seconds between two millisecond stamps, capped above at a tenth of a second. */
  function CalculateDeltaTime(lastTime: real, currentTime: real): (dt: real)
    ensures dt <= 0.1
    ensures dt <= (currentTime - lastTime) / 1000.0
    ensures dt == 0.1 || dt == (currentTime - lastTime) / 1000.0
    ensures currentTime - lastTime <= 100.0 ==> dt == (currentTime - lastTime) / 1000.0
  {
    var deltaTime := (currentTime - lastTime) / 1000.0;
    Min(deltaTime, 0.1)
  }
}
