/**
 * The records of the seconds-based game (variant A): the bird, a pipe, the
 * tuning configuration, the store status and the outcome of a collision test.
 * Numbers are exact reals.
 */
module GameTypes {
  import opened Wrappers

  /** The store status; `Hit` is the short pause after a crash. */
  datatype Status = Ready | Running | Hit | GameOver

  datatype Bird = Bird(x: real, y: real, velocity: real, rotation: real, radius: real)

  /** A pipe pair: the gap starts at `gapY` and is `gapHeight` tall. */
  datatype Pipe = Pipe(x: real, gapY: real, gapHeight: real, width: real, passed: bool)

  datatype GameConfig = GameConfig(
    gravity: real,
    jumpImpulse: real,
    pipeSpeed: real,
    pipeGap: real,
    pipeWidth: real,
    pipeInterval: real,
    backgroundSpeed: real,
    groundSpeed: real,
    birdRadius: real,
    canvasWidth: real,
    canvasHeight: real)

  datatype CollisionType = PipeCollision | Ground | Ceiling

  /** `kind` is `None` where the source has `type: null`. */
  datatype CollisionResult = CollisionResult(collided: bool, kind: Option<CollisionType>)
}
