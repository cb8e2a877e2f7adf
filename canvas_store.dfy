/**
 * The store of the seconds-based game (variant A): one mutable state record
 * (status, score, high score, bird, pipes) with its actions. The per-tick
 * `UpdatePhysics` scrolls, culls, spawns and scores the pipes; its meaning is
 * the pure function `Tick`, about which the lemmas below speak.
 * The parallax offsets of the record are visual and not part of this model.
 */
module CanvasStore {
  import opened Wrappers
  import opened GameTypes
  import GamePhysics

  const DefaultConfig: GameConfig :=
    GameConfig(980.0, -350.0, 150.0, 150.0, 60.0, 2000.0, 30.0, 120.0, 15.0, 400.0, 600.0)

  datatype GameState = GameState(status: Status, score: int, highScore: int, bird: Bird, pipes: seq<Pipe>)

  /**
   * A bird at rest a fifth of the way across and halfway down the canvas. It
   * starts clear of the ground and the ceiling exactly when the canvas is taller
   * than the bird.
   */
  function CreateInitialBird(config: GameConfig): (b: Bird)
    ensures b.x == config.canvasWidth * 0.2 && b.y == config.canvasHeight * 0.5
    ensures b.velocity == 0.0 && b.rotation == 0.0 && b.radius == config.birdRadius
    ensures config.canvasWidth > 0.0 ==> 0.0 < b.x < config.canvasWidth
    ensures !GamePhysics.CheckBirdBoundaryCollision(b, config).collided <==>
              config.canvasHeight > 2.0 * config.birdRadius
  {
    Bird(config.canvasWidth * 0.2, config.canvasHeight * 0.5, 0.0, 0.0, config.birdRadius)
  }

  /**
   * The ready state of a config: no pipes, no score, the initial bird. Its first
   * frame detects no collision exactly when the canvas is taller than the bird.
   */
  function CreateInitialState(config: GameConfig): (s: GameState)
    ensures s.status == Ready && s.score == 0 && s.highScore == 0 && s.pipes == []
    ensures s.bird == CreateInitialBird(config)
    ensures !GamePhysics.CheckAllCollisions(s.bird, s.pipes, config).collided <==>
              config.canvasHeight > 2.0 * config.birdRadius
  {
    GameState(Ready, 0, 0, CreateInitialBird(config), [])
  }

  function IntMax(a: int, b: int): int { if a >= b then a else b }

  /** Pipes in list order stand strictly left to right (oldest first). */
  predicate Ascending(pipes: seq<Pipe>) {
    forall i, j :: 0 <= i < j < |pipes| ==> pipes[i].x < pipes[j].x
  }

  /** Every pipe moved left by `distance`. */
  function Scrolled(pipes: seq<Pipe>, distance: real): (moved: seq<Pipe>)
    ensures |moved| == |pipes|
    ensures forall i :: 0 <= i < |pipes| ==> moved[i] == pipes[i].(x := pipes[i].x - distance)
  {
    seq(|pipes|, i requires 0 <= i < |pipes| => pipes[i].(x := pipes[i].x - distance))
  }

  /** The pipes still (partly) on screen: those with `x > -pipeWidth`, in their order. */
  function Culled(pipes: seq<Pipe>, pipeWidth: real): seq<Pipe>
    decreases |pipes|
  {
    if |pipes| == 0 then []
    else if pipes[0].x > -pipeWidth then [pipes[0]] + Culled(pipes[1..], pipeWidth)
    else Culled(pipes[1..], pipeWidth)
  }

  /** A new pipe is due when there is none, or the newest has moved past the interval mark. */
  predicate SpawnDue(pipes: seq<Pipe>, config: GameConfig) {
    |pipes| == 0 || pipes[|pipes| - 1].x < config.canvasWidth - config.pipeInterval
  }

  /** Appends at most one fresh pipe at the right edge of the canvas. */
  function WithSpawn(pipes: seq<Pipe>, config: GameConfig, r: real): (result: seq<Pipe>)
    requires 0.0 <= r < 1.0
    ensures |result| == if SpawnDue(pipes, config) then |pipes| + 1 else |pipes|
    ensures result[..|pipes|] == pipes
    ensures SpawnDue(pipes, config) ==>
              result[|pipes|] == Pipe(config.canvasWidth, GamePhysics.GeneratePipeGap(config, r),
                                      config.pipeGap, config.pipeWidth, false)
  {
    if SpawnDue(pipes, config) then
      pipes + [Pipe(config.canvasWidth, GamePhysics.GeneratePipeGap(config, r), config.pipeGap, config.pipeWidth, false)]
    else
      pipes
  }

  /** An unpassed pipe whose right edge is strictly left of the bird's centre scores now. */
  predicate Passes(pipe: Pipe, birdX: real) {
    !pipe.passed && pipe.x + pipe.width < birdX
  }

  /** The pipes with every scoring pipe flagged as passed. */
  function MarkPassed(pipes: seq<Pipe>, birdX: real): (marked: seq<Pipe>)
    ensures |marked| == |pipes|
    ensures forall i :: 0 <= i < |pipes| ==>
              marked[i].passed == (pipes[i].passed || Passes(pipes[i], birdX)) &&
              marked[i] == pipes[i].(passed := marked[i].passed)
  {
    seq(|pipes|, i requires 0 <= i < |pipes| =>
      if Passes(pipes[i], birdX) then pipes[i].(passed := true) else pipes[i])
  }

  /** How many pipes score now. */
  function PassCount(pipes: seq<Pipe>, birdX: real): nat
    decreases |pipes|
  {
    if |pipes| == 0 then 0
    else PassCount(pipes[..|pipes| - 1], birdX) + (if Passes(pipes[|pipes| - 1], birdX) then 1 else 0)
  }

  /** How many pipes carry the passed flag. */
  function PassedFlags(pipes: seq<Pipe>): nat
    decreases |pipes|
  {
    if |pipes| == 0 then 0
    else PassedFlags(pipes[..|pipes| - 1]) + (if pipes[|pipes| - 1].passed then 1 else 0)
  }

  /** How far the pipes move left in a tick of `deltaTime` seconds. */
  function ScrollDistance(config: GameConfig, deltaTime: real): real {
    config.pipeSpeed * deltaTime
  }

  /** The pipe list after scrolling, culling and spawning, before scoring. */
  function TickPipes(pipes: seq<Pipe>, config: GameConfig, deltaTime: real, r: real): seq<Pipe>
    requires 0.0 <= r < 1.0
  {
    WithSpawn(Culled(Scrolled(pipes, ScrollDistance(config, deltaTime)), config.pipeWidth), config, r)
  }

  /** One running tick of the store, parallax offsets aside. */
  function Tick(s: GameState, config: GameConfig, deltaTime: real, r: real): GameState
    requires 0.0 <= r < 1.0
  {
    var spawned := TickPipes(s.pipes, config, deltaTime, r);
    var newScore := s.score + PassCount(spawned, s.bird.x);
    s.(bird := GamePhysics.UpdateBirdPhysics(s.bird, deltaTime, config),
       pipes := MarkPassed(spawned, s.bird.x),
       score := newScore,
       highScore := IntMax(s.highScore, newScore))
  }

  /** The actions of the store. */
  datatype Action =
    | StartGameAction | PauseGameAction | ResumeGameAction | ResetGameAction
    | JumpAction | UpdatePhysicsAction | SetCollisionAction

  /** The status each action leaves behind. */
  function StatusAfter(a: Action, status: Status): Status {
    match a
    case StartGameAction => Running
    case PauseGameAction => Ready
    case ResumeGameAction => Running
    case ResetGameAction => Ready
    case JumpAction => status
    case UpdatePhysicsAction => status
    case SetCollisionAction => if status == Running then Hit else status
  }

  /** No action ever enters `GameOver`, and `Hit` is entered only from `Running`. */
  lemma StatusTransitions(a: Action, status: Status)
    ensures StatusAfter(a, status) == GameOver ==> status == GameOver
    ensures StatusAfter(a, status) == Hit ==> status == Hit || (status == Running && a == SetCollisionAction)
  {
  }

  // ---------------------------------------------------------------------------
  // Lemmas about the tick

  lemma {:induction false} CulledMembers(pipes: seq<Pipe>, pipeWidth: real)
    ensures forall p :: p in Culled(pipes, pipeWidth) <==> p in pipes && p.x > -pipeWidth
    decreases |pipes|
  {
    if |pipes| > 0 {
      CulledMembers(pipes[1..], pipeWidth);
      assert pipes == [pipes[0]] + pipes[1..];
    }
  }

  /** Culling keeps the survivors in their order. */
  lemma {:induction false} CulledAscending(pipes: seq<Pipe>, pipeWidth: real)
    requires Ascending(pipes)
    ensures Ascending(Culled(pipes, pipeWidth))
    decreases |pipes|
  {
    if |pipes| > 0 {
      var rest := Culled(pipes[1..], pipeWidth);
      CulledAscending(pipes[1..], pipeWidth);
      CulledMembers(pipes[1..], pipeWidth);
      if pipes[0].x > -pipeWidth {
        forall j | 0 < j < |rest| + 1
          ensures pipes[0].x < ([pipes[0]] + rest)[j].x
        {
          var p := rest[j - 1];
          assert p in pipes[1..];
          var k :| 0 <= k < |pipes[1..]| && pipes[1..][k] == p;
          assert pipes[k + 1] == p;
        }
      }
    }
  }

  lemma ScrolledAscending(pipes: seq<Pipe>, distance: real)
    requires Ascending(pipes)
    ensures Ascending(Scrolled(pipes, distance))
  {
  }

  /** A spawn lands strictly right of every pipe when the interval is not negative. */
  lemma SpawnAscending(pipes: seq<Pipe>, config: GameConfig, r: real)
    requires 0.0 <= r < 1.0
    requires Ascending(pipes) && config.pipeInterval >= 0.0
    ensures Ascending(WithSpawn(pipes, config, r))
  {
    var result := WithSpawn(pipes, config, r);
    if SpawnDue(pipes, config) && |pipes| > 0 {
      forall i | 0 <= i < |pipes|
        ensures result[i].x < result[|pipes|].x
      {
        assert result[i] == pipes[i];
        assert pipes[i].x <= pipes[|pipes| - 1].x;
      }
    }
  }

  /**
   * With the default configuration the interval mark lies far left of the cull
   * line, so after culling a new pipe is due only when no pipe is left.
   */
  lemma DefaultSpawnsOnlyWhenEmpty(pipes: seq<Pipe>)
    ensures var kept := Culled(pipes, DefaultConfig.pipeWidth);
            SpawnDue(kept, DefaultConfig) <==> |kept| == 0
  {
    var kept := Culled(pipes, DefaultConfig.pipeWidth);
    CulledMembers(pipes, DefaultConfig.pipeWidth);
    if |kept| > 0 {
      assert kept[|kept| - 1] in kept;
    }
  }

  /** The tick keeps the pipe list ordered left to right. */
  lemma TickAscending(s: GameState, config: GameConfig, deltaTime: real, r: real)
    requires 0.0 <= r < 1.0
    requires Ascending(s.pipes) && config.pipeInterval >= 0.0
    ensures Ascending(Tick(s, config, deltaTime, r).pipes)
  {
    var moved := Scrolled(s.pipes, ScrollDistance(config, deltaTime));
    ScrolledAscending(s.pipes, ScrollDistance(config, deltaTime));
    CulledAscending(moved, config.pipeWidth);
    SpawnAscending(Culled(moved, config.pipeWidth), config, r);
  }

  /** Every pipe that scores turns its flag from false to true: the flags grow by exactly the count. */
  lemma {:induction false} MarkPassedCountsFlags(pipes: seq<Pipe>, birdX: real)
    ensures PassedFlags(MarkPassed(pipes, birdX)) == PassedFlags(pipes) + PassCount(pipes, birdX)
    decreases |pipes|
  {
    if |pipes| > 0 {
      var init := pipes[..|pipes| - 1];
      MarkPassedCountsFlags(init, birdX);
      assert MarkPassed(pipes, birdX)[..|pipes| - 1] == MarkPassed(init, birdX);
    }
  }

  /** The score rises by exactly the number of flags turned; the high score never drops and bounds the score. */
  lemma TickScoring(s: GameState, config: GameConfig, deltaTime: real, r: real)
    requires 0.0 <= r < 1.0
    ensures var t := Tick(s, config, deltaTime, r);
            var spawned := TickPipes(s.pipes, config, deltaTime, r);
            t.score - s.score == PassedFlags(t.pipes) - PassedFlags(spawned) &&
            t.score >= s.score &&
            t.highScore >= s.highScore && t.highScore >= t.score
  {
    MarkPassedCountsFlags(TickPipes(s.pipes, config, deltaTime, r), s.bird.x);
  }

  /** A passed pipe that survives culling is still in the list after the tick, still passed. */
  lemma TickKeepsPassed(s: GameState, config: GameConfig, deltaTime: real, r: real, i: nat)
    requires 0.0 <= r < 1.0
    requires i < |s.pipes| && s.pipes[i].passed
    requires s.pipes[i].x - ScrollDistance(config, deltaTime) > -config.pipeWidth
    ensures s.pipes[i].(x := s.pipes[i].x - ScrollDistance(config, deltaTime)) in Tick(s, config, deltaTime, r).pipes
  {
    var moved := Scrolled(s.pipes, ScrollDistance(config, deltaTime));
    var culled := Culled(moved, config.pipeWidth);
    var q := moved[i];
    CulledMembers(moved, config.pipeWidth);
    assert q in culled;
    var k :| 0 <= k < |culled| && culled[k] == q;
    var spawned := WithSpawn(culled, config, r);
    assert spawned[..|culled|] == culled;
    assert spawned[k] == q;
    var marked := MarkPassed(spawned, s.bird.x);
    assert marked[k] == q;
  }

  /** The scoring pass of a tick: flags every scoring pipe and counts one point for each. */
  method ScorePipes(pipes: seq<Pipe>, birdX: real, score: int) returns (marked: seq<Pipe>, newScore: int)
    ensures marked == MarkPassed(pipes, birdX)
    ensures newScore == score + PassCount(pipes, birdX)
  {
    marked := pipes;
    newScore := score;
    var i := 0;
    while i < |marked|
      invariant 0 <= i <= |marked| == |pipes|
      invariant forall j :: 0 <= j < i ==> marked[j] == MarkPassed(pipes, birdX)[j]
      invariant forall j :: i <= j < |marked| ==> marked[j] == pipes[j]
      invariant newScore == score + PassCount(pipes[..i], birdX)
    {
      assert pipes[..i + 1][..i] == pipes[..i];
      if !marked[i].passed && marked[i].x + marked[i].width < birdX {
        marked := marked[i := marked[i].(passed := true)];
        newScore := newScore + 1;
      }
      i := i + 1;
    }
    assert pipes[..i] == pipes;
  }

  /** The spawning step of a tick: one fresh pipe at the right edge when the newest has moved far enough. */
  method SpawnPipe(pipes: seq<Pipe>, config: GameConfig, r: real) returns (result: seq<Pipe>)
    requires 0.0 <= r < 1.0
    ensures result == WithSpawn(pipes, config, r)
  {
    result := pipes;
    if |pipes| == 0 || pipes[|pipes| - 1].x < config.canvasWidth - config.pipeInterval {
      var gapY := r * (config.canvasHeight - config.pipeGap - 100.0) + 50.0;
      assert gapY == GamePhysics.GeneratePipeGap(config, r);
      result := result + [Pipe(config.canvasWidth, gapY, config.pipeGap, config.pipeWidth, false)];
    }
  }

  // ---------------------------------------------------------------------------
  // The store

  class Store {
    var status: Status
    var score: int
    var highScore: int
    var bird: Bird
    var pipes: seq<Pipe>
    var config: GameConfig

    function State(): GameState
      reads this
    {
      GameState(status, score, highScore, bird, pipes)
    }

    constructor ()
      ensures State() == CreateInitialState(DefaultConfig) && config == DefaultConfig
    {
      status, score, highScore := Ready, 0, 0;
      bird := CreateInitialBird(DefaultConfig);
      pipes := [];
      config := DefaultConfig;
    }

    /** A fresh round: running, score 0, no pipes, the bird back at its start; the high score stays. */
    method StartGame()
      modifies this
      ensures State() == old(State()).(status := Running, bird := CreateInitialBird(config), pipes := [], score := 0)
      ensures status == StatusAfter(StartGameAction, old(status))
      ensures config == old(config)
    {
      status := Running;
      bird := CreateInitialBird(config);
      pipes := [];
      score := 0;
    }

    method PauseGame()
      modifies this
      ensures State() == old(State()).(status := Ready)
      ensures status == StatusAfter(PauseGameAction, old(status))
      ensures config == old(config)
    {
      status := Ready;
    }

    method ResumeGame()
      modifies this
      ensures State() == old(State()).(status := Running)
      ensures status == StatusAfter(ResumeGameAction, old(status))
      ensures config == old(config)
    {
      status := Running;
    }

    /** Back to the initial ready state, keeping the high score and the configuration. */
    method ResetGame()
      modifies this
      ensures State() == CreateInitialState(config).(highScore := old(highScore))
      ensures status == StatusAfter(ResetGameAction, old(status))
      ensures config == old(config)
    {
      var initial := CreateInitialState(config);
      status, score, bird, pipes := initial.status, initial.score, initial.bird, initial.pipes;
    }

    /** While running, the velocity becomes the jump impulse (it is overwritten, not added to). */
    method Jump()
      modifies this
      ensures old(status) != Running ==> State() == old(State())
      ensures old(status) == Running ==> State() == old(State()).(bird := old(bird).(velocity := config.jumpImpulse))
      ensures status == StatusAfter(JumpAction, old(status))
      ensures config == old(config)
    {
      if status != Running {
        return;
      }
      bird := bird.(velocity := config.jumpImpulse);
    }

    /**
     * One tick of `deltaTime` seconds while running; `r` is the random draw for
     * a spawned pipe's gap.
     */
    method UpdatePhysics(deltaTime: real, r: real)
      requires 0.0 <= r < 1.0
      modifies this
      ensures old(status) != Running ==> State() == old(State())
      ensures old(status) == Running ==> State() == Tick(old(State()), config, deltaTime, r)
      ensures status == StatusAfter(UpdatePhysicsAction, old(status))
      ensures config == old(config)
    {
      if status != Running {
        return;
      }
      ghost var expected := Tick(State(), config, deltaTime, r);
      // the store repeats the formula of updateBirdPhysics inline
      var newBird := GamePhysics.UpdateBirdPhysics(bird, deltaTime, config);

      var distance := config.pipeSpeed * deltaTime;
      assert distance == ScrollDistance(config, deltaTime);
      var newPipes := SpawnPipe(Culled(Scrolled(pipes, distance), config.pipeWidth), config, r);
      assert newPipes == TickPipes(pipes, config, deltaTime, r);
      var newScore;
      newPipes, newScore := ScorePipes(newPipes, bird.x, score);
      assert newPipes == expected.pipes && newScore == expected.score;
      bird, pipes, score, highScore := newBird, newPipes, newScore, IntMax(highScore, newScore);
    }

    /** A collision moves a running game to `Hit`; in any other status nothing changes. */
    method SetCollision(kind: CollisionType)
      modifies this
      ensures old(status) == Running ==> State() == old(State()).(status := Hit)
      ensures old(status) != Running ==> State() == old(State())
      ensures status == StatusAfter(SetCollisionAction, old(status))
      ensures config == old(config)
    {
      if status != Running {
        return;
      }
      status := Hit;
    }
  }
}
