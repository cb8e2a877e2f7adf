/**
 * The engine of the per-frame game (variant B): the bird and the pipe list,
 * advanced in place once per frame while the store's phase is `Playing`.
 * Velocities are per frame at 60 frames a second, so a frame of `delta`
 * milliseconds is scaled by `delta * 0.06`. Pipes are spawned at `lastPipeX`,
 * which only ever grows. Score points and the switch to `GameOver` go to the
 * store; sound cues are returned.
 */
module GameEngine {
  import opened Cues
  import opened GameStore
  import GameTypes
  import GamePhysics

  const PipeWidth: real := 60.0
  const PipeSpacing: real := 200.0
  const BirdX: real := 100.0

  datatype Bird = Bird(x: real, y: real, velocity: real, radius: real)
  datatype Pipe = Pipe(x: real, gapY: real, gapSize: real, passed: bool)
  datatype EngineState = EngineState(bird: Bird, pipes: seq<Pipe>, lastPipeX: real)

  const InitialState: EngineState := EngineState(Bird(BirdX, 300.0, 0.0, 15.0), [], 400.0)

  /** Pipes in list order stand strictly left to right. */
  predicate Ascending(pipes: seq<Pipe>) {
    forall i, j :: 0 <= i < j < |pipes| ==> pipes[i].x < pipes[j].x
  }

  /** The pipes are ascending and all of them left of `lastPipeX`. */
  predicate ValidState(s: EngineState) {
    Ascending(s.pipes) && forall i :: 0 <= i < |s.pipes| ==> s.pipes[i].x < s.lastPipeX
  }

  function TimeScale(delta: real): real { delta * 0.06 }

  /** Gravity, then position with the new velocity. */
  function Integrate(b: Bird, gravity: real, timeScale: real): (nb: Bird)
    ensures nb.velocity == b.velocity + gravity * timeScale
    ensures nb.y == b.y + nb.velocity * timeScale
    ensures nb.x == b.x && nb.radius == b.radius
  {
    var v := b.velocity + gravity * timeScale;
    b.(velocity := v, y := b.y + v * timeScale)
  }

  /** The ceiling is not fatal: a bird above it is put back on it, at rest. */
  function ClampCeiling(b: Bird): (nb: Bird)
    ensures nb.y >= nb.radius
    ensures nb.x == b.x && nb.radius == b.radius
    ensures b.y >= b.radius ==> nb == b
    ensures b.y < b.radius ==> nb.y == b.radius && nb.velocity == 0.0
  {
    if b.y < b.radius then b.(y := b.radius, velocity := 0.0) else b
  }

  /** The ground is fatal: the bird's centre sinks below `canvasHeight - radius`. */
  predicate Grounded(b: Bird, canvasHeight: real) {
    b.y > canvasHeight - b.radius
  }

  /** The pipes kept: those whose right edge is right of 50 left of the screen. */
  function Cull(pipes: seq<Pipe>): (kept: seq<Pipe>)
    ensures |kept| <= |pipes|
    decreases |pipes|
  {
    if |pipes| == 0 then []
    else if pipes[0].x + PipeWidth > -50.0 then [pipes[0]] + Cull(pipes[1..])
    else Cull(pipes[1..])
  }

  predicate SpawnDue(pipes: seq<Pipe>, lastPipeX: real, canvasWidth: real) {
    lastPipeX < canvasWidth || |pipes| == 0
  }

  /** The pipe spawned at `lastPipeX`; its gap top is 100 plus `r` times the height less 300. */
  function NewPipe(lastPipeX: real, canvasHeight: real, r: real, gapSize: real): Pipe {
    Pipe(lastPipeX, 100.0 + r * (canvasHeight - 300.0), gapSize, false)
  }

  /** Cull, then spawn at most one pipe; `lastPipeX` moves on by the spacing exactly when one is spawned. */
  function CullAndSpawn(s: EngineState, canvasWidth: real, canvasHeight: real, r: real, gapSize: real): (t: EngineState)
    ensures t.bird == s.bird
    ensures var kept := Cull(s.pipes);
            if SpawnDue(kept, s.lastPipeX, canvasWidth) then
              t.pipes == kept + [NewPipe(s.lastPipeX, canvasHeight, r, gapSize)] && t.lastPipeX == s.lastPipeX + PipeSpacing
            else
              t.pipes == kept && t.lastPipeX == s.lastPipeX
  {
    var kept := Cull(s.pipes);
    if SpawnDue(kept, s.lastPipeX, canvasWidth) then
      s.(pipes := kept + [NewPipe(s.lastPipeX, canvasHeight, r, gapSize)], lastPipeX := s.lastPipeX + PipeSpacing)
    else
      s.(pipes := kept)
  }

  function Shift(params: DifficultyParams, timeScale: real): real {
    params.pipeSpeed * timeScale
  }

  /** An unpassed pipe scores once its moved right edge is strictly left of the bird's left edge. */
  predicate Scores(p: Pipe, shift: real, b: Bird) {
    !p.passed && p.x - shift + PipeWidth < b.x - b.radius
  }

  /** One pipe moved left by `shift`, flagged passed when it scores. */
  function Advance(p: Pipe, shift: real, b: Bird): (q: Pipe)
    ensures q.x == p.x - shift && q.gapY == p.gapY && q.gapSize == p.gapSize
    ensures q.passed == (p.passed || Scores(p, shift, b))
  {
    var moved := p.(x := p.x - shift);
    if !moved.passed && moved.x + PipeWidth < b.x - b.radius then moved.(passed := true) else moved
  }

  function AdvanceAll(pipes: seq<Pipe>, shift: real, b: Bird): (moved: seq<Pipe>)
    ensures |moved| == |pipes|
    ensures forall i :: 0 <= i < |pipes| ==> moved[i] == Advance(pipes[i], shift, b)
  {
    seq(|pipes|, i requires 0 <= i < |pipes| => Advance(pipes[i], shift, b))
  }

  /** The bird's box meets the solid part of a (moved) pipe. */
  predicate HitsPipe(b: Bird, q: Pipe) {
    var birdLeft := b.x - b.radius;
    var birdRight := b.x + b.radius;
    var birdTop := b.y - b.radius;
    var birdBottom := b.y + b.radius;
    birdRight > q.x && birdLeft < q.x + PipeWidth && (birdTop < q.gapY || birdBottom > q.gapY + q.gapSize)
  }

  function ScoreCount(pipes: seq<Pipe>, shift: real, b: Bird): nat
    decreases |pipes|
  {
    if |pipes| == 0 then 0
    else ScoreCount(pipes[..|pipes| - 1], shift, b) + (if Scores(pipes[|pipes| - 1], shift, b) then 1 else 0)
  }

  function HitCount(pipes: seq<Pipe>, shift: real, b: Bird): nat
    decreases |pipes|
  {
    if |pipes| == 0 then 0
    else HitCount(pipes[..|pipes| - 1], shift, b) + (if HitsPipe(b, Advance(pipes[|pipes| - 1], shift, b)) then 1 else 0)
  }

  function PassedFlags(pipes: seq<Pipe>): nat
    decreases |pipes|
  {
    if |pipes| == 0 then 0
    else PassedFlags(pipes[..|pipes| - 1]) + (if pipes[|pipes| - 1].passed then 1 else 0)
  }

  /** What one playing frame does: the new engine state, the points scored, whether it crashed, the cues. */
  datatype StepOutcome = StepOutcome(state: EngineState, points: nat, crashed: bool, cues: seq<Cue>)

  function Step(s: EngineState, params: DifficultyParams, delta: real,
                canvasWidth: real, canvasHeight: real, r: real): StepOutcome
  {
    var timeScale := TimeScale(delta);
    var b := ClampCeiling(Integrate(s.bird, params.gravity, timeScale));
    if Grounded(b, canvasHeight) then
      StepOutcome(s.(bird := b), 0, true, [CollisionCue])
    else
      var spawned := CullAndSpawn(s.(bird := b), canvasWidth, canvasHeight, r, params.gapSize);
      var shift := Shift(params, timeScale);
      var hits := HitCount(spawned.pipes, shift, b);
      StepOutcome(spawned.(pipes := AdvanceAll(spawned.pipes, shift, b)),
                  ScoreCount(spawned.pipes, shift, b), hits > 0, Repeat(CollisionCue, hits))
  }

  // ---------------------------------------------------------------------------
  // Lemmas

  /** The engine's hit test is the seconds-based game's pipe test with width 60 and the gap size as height. */
  lemma HitMatchesPhysics(b: Bird, q: Pipe)
    ensures HitsPipe(b, q) ==
            GamePhysics.CheckBirdPipeCollision(GameTypes.Bird(b.x, b.y, b.velocity, 0.0, b.radius),
                                               GameTypes.Pipe(q.x, q.gapY, q.gapSize, PipeWidth, q.passed))
  {
  }

  lemma {:induction false} CullMembers(pipes: seq<Pipe>)
    ensures forall p :: p in Cull(pipes) <==> p in pipes && p.x + PipeWidth > -50.0
    decreases |pipes|
  {
    if |pipes| > 0 {
      CullMembers(pipes[1..]);
      assert pipes == [pipes[0]] + pipes[1..];
    }
  }

  lemma {:induction false} CullAscending(pipes: seq<Pipe>)
    requires Ascending(pipes)
    ensures Ascending(Cull(pipes))
    decreases |pipes|
  {
    if |pipes| > 0 {
      var rest := Cull(pipes[1..]);
      CullAscending(pipes[1..]);
      CullMembers(pipes[1..]);
      if pipes[0].x + PipeWidth > -50.0 {
        forall j | 0 < j < |rest| + 1
          ensures pipes[0].x < ([pipes[0]] + rest)[j].x
        {
          var p := rest[j - 1];
          assert p in pipes[1..];
          var k :| 0 <= k < |pipes[1..]| && pipes[1..][k] == p;
          assert pipes[k + 1] == p;
        }
      }
    }
  }

  /** Culling and spawning keep the pipes ordered and left of `lastPipeX`. */
  lemma CullAndSpawnValid(s: EngineState, canvasWidth: real, canvasHeight: real, r: real, gapSize: real)
    requires ValidState(s)
    ensures ValidState(CullAndSpawn(s, canvasWidth, canvasHeight, r, gapSize))
  {
    var kept := Cull(s.pipes);
    CullAscending(s.pipes);
    CullMembers(s.pipes);
    forall i | 0 <= i < |kept|
      ensures kept[i].x < s.lastPipeX
    {
      assert kept[i] in s.pipes;
    }
    var t := CullAndSpawn(s, canvasWidth, canvasHeight, r, gapSize);
    if SpawnDue(kept, s.lastPipeX, canvasWidth) {
      forall i, j | 0 <= i < j < |t.pipes|
        ensures t.pipes[i].x < t.pipes[j].x
      {
        assert t.pipes[i] == kept[i];
        if j < |kept| {
          assert t.pipes[j] == kept[j];
        }
      }
    }
  }

  /** Moving every pipe left by the same non-negative shift keeps the order and the bound. */
  lemma AdvanceAllValid(s: EngineState, shift: real, b: Bird)
    requires ValidState(s) && shift >= 0.0
    ensures ValidState(s.(pipes := AdvanceAll(s.pipes, shift, b)))
  {
  }

  lemma ShiftNonNegative(params: DifficultyParams, delta: real)
    requires params.pipeSpeed >= 0.0 && delta >= 0.0
    ensures Shift(params, TimeScale(delta)) >= 0.0
  {
  }

  /** A playing frame with a non-negative elapsed time keeps the pipe invariant. */
  lemma StepValid(s: EngineState, params: DifficultyParams, delta: real,
                  canvasWidth: real, canvasHeight: real, r: real)
    requires ValidState(s) && params.pipeSpeed >= 0.0 && delta >= 0.0
    ensures ValidState(Step(s, params, delta, canvasWidth, canvasHeight, r).state)
  {
    var timeScale := TimeScale(delta);
    var b := ClampCeiling(Integrate(s.bird, params.gravity, timeScale));
    if !Grounded(b, canvasHeight) {
      var spawned := CullAndSpawn(s.(bird := b), canvasWidth, canvasHeight, r, params.gapSize);
      CullAndSpawnValid(s.(bird := b), canvasWidth, canvasHeight, r, params.gapSize);
      ShiftNonNegative(params, delta);
      AdvanceAllValid(spawned, Shift(params, timeScale), b);
    }
  }

  /** The points of a frame are exactly the passed flags it turns on: no pipe is counted twice. */
  lemma {:induction false} AdvanceCountsFlags(pipes: seq<Pipe>, shift: real, b: Bird)
    ensures PassedFlags(AdvanceAll(pipes, shift, b)) == PassedFlags(pipes) + ScoreCount(pipes, shift, b)
    decreases |pipes|
  {
    if |pipes| > 0 {
      var init := pipes[..|pipes| - 1];
      AdvanceCountsFlags(init, shift, b);
      assert AdvanceAll(pipes, shift, b)[..|pipes| - 1] == AdvanceAll(init, shift, b);
    }
  }

  /** A pipe that has scored cannot score again. */
  lemma ScoresOnce(p: Pipe, shift: real, b: Bird, shift2: real, b2: Bird)
    requires Scores(p, shift, b)
    ensures !Scores(Advance(p, shift, b), shift2, b2)
  {
  }

  /** A frame spawns at most one pipe, and `lastPipeX` either stays or grows by the spacing. */
  lemma StepSpawnsAtMostOne(s: EngineState, params: DifficultyParams, delta: real,
                            canvasWidth: real, canvasHeight: real, r: real)
    ensures var t := Step(s, params, delta, canvasWidth, canvasHeight, r).state;
            |t.pipes| <= |s.pipes| + 1 &&
            (t.lastPipeX == s.lastPipeX || t.lastPipeX == s.lastPipeX + PipeSpacing)
  {
  }

  /**
   * `lastPipeX` is never scrolled, so once it has reached the canvas width a pipe
   * is spawned only when culling has left no pipe, and it stays at or beyond the width.
   */
  lemma SpawnOnlyWhenEmptyOnceAhead(s: EngineState, canvasWidth: real, canvasHeight: real, r: real, gapSize: real)
    requires s.lastPipeX >= canvasWidth
    ensures var t := CullAndSpawn(s, canvasWidth, canvasHeight, r, gapSize);
            (|t.pipes| > |Cull(s.pipes)| <==> |Cull(s.pipes)| == 0) && t.lastPipeX >= canvasWidth
  {
  }

  /** A crash on the ground leaves the pipes and `lastPipeX` as they were and plays one collision cue. */
  lemma GroundCrashFreezesPipes(s: EngineState, params: DifficultyParams, delta: real,
                                canvasWidth: real, canvasHeight: real, r: real)
    requires Grounded(ClampCeiling(Integrate(s.bird, params.gravity, TimeScale(delta))), canvasHeight)
    ensures var o := Step(s, params, delta, canvasWidth, canvasHeight, r);
            o.crashed && o.points == 0 && o.cues == [CollisionCue] &&
            o.state.pipes == s.pipes && o.state.lastPipeX == s.lastPipeX
  {
  }

  // ---------------------------------------------------------------------------
  // The engine

  class Engine {
    var bird: Bird
    var pipes: seq<Pipe>
    var lastPipeX: real

    function State(): EngineState
      reads this
    {
      EngineState(bird, pipes, lastPipeX)
    }

    predicate Valid()
      reads this
    {
      ValidState(State())
    }

    constructor ()
      ensures State() == InitialState && Valid()
    {
      bird := InitialState.bird;
      pipes := [];
      lastPipeX := InitialState.lastPipeX;
    }

    method ResetGame()
      modifies this
      ensures State() == InitialState && Valid()
    {
      bird := Bird(BirdX, 300.0, 0.0, 15.0);
      pipes := [];
      lastPipeX := 400.0;
    }

    /** The velocity becomes minus the flap force of the current difficulty; a flap cue is played. */
    method Flap(store: Store) returns (cues: seq<Cue>)
      modifies this
      ensures State() == old(State()).(bird := old(bird).(velocity := -store.GetDifficultyParams().flapForce))
      ensures cues == [FlapCue]
    {
      var params := store.GetDifficultyParams();
      bird := bird.(velocity := -params.flapForce);
      cues := [FlapCue];
    }

    /**
     * One animation frame of `delta` milliseconds on a canvas of the given size;
     * `r` is the random draw for a spawned pipe's gap.
     */
    method Update(store: Store, delta: real, canvasWidth: real, canvasHeight: real, r: real)
      returns (cues: seq<Cue>)
      modifies this, store
      ensures old(store.gamePhase) != Playing ==>
                State() == old(State()) && store.State() == old(store.State()) && cues == []
      ensures old(store.gamePhase) == Playing ==>
                var o := Step(old(State()), DifficultyPreset(old(store.difficulty)), delta, canvasWidth, canvasHeight, r);
                State() == o.state && cues == o.cues &&
                store.State() == old(store.State()).(score := old(store.score) + o.points,
                                                     gamePhase := if o.crashed then GameOver else Playing)
      ensures old(Valid()) && delta >= 0.0 ==> Valid()
    {
      if store.gamePhase != Playing {
        return [];
      }
      ghost var s0 := State();
      var params := store.GetDifficultyParams();
      ghost var o := Step(s0, params, delta, canvasWidth, canvasHeight, r);
      var timeScale := delta * 0.06;
      MoveBird(params.gravity, timeScale);

      if bird.y > canvasHeight - bird.radius {
        cues := [CollisionCue];
        store.SetGamePhase(GameOver);
        return;
      }

      CullAndSpawnPipes(canvasWidth, canvasHeight, r, params.gapSize);
      var shift := params.pipeSpeed * timeScale;
      assert shift == Shift(params, TimeScale(delta));
      cues := AdvancePipes(store, shift);

      if old(Valid()) && delta >= 0.0 {
        StepValid(s0, params, delta, canvasWidth, canvasHeight, r);
      }
    }

    /** Gravity, then position, then the ceiling clamp. */
    method MoveBird(gravity: real, timeScale: real)
      modifies this
      ensures State() == old(State()).(bird := ClampCeiling(Integrate(old(bird), gravity, timeScale)))
    {
      bird := bird.(velocity := bird.velocity + gravity * timeScale);
      bird := bird.(y := bird.y + bird.velocity * timeScale);
      if bird.y < bird.radius {
        bird := bird.(y := bird.radius, velocity := 0.0);
      }
    }

    /** Drops the pipes gone off the left edge and spawns one at `lastPipeX` when due. */
    method CullAndSpawnPipes(canvasWidth: real, canvasHeight: real, r: real, gapSize: real)
      modifies this
      ensures State() == CullAndSpawn(old(State()), canvasWidth, canvasHeight, r, gapSize)
    {
      pipes := Cull(pipes);
      if lastPipeX < canvasWidth || |pipes| == 0 {
        var newPipe := Pipe(lastPipeX, 100.0 + r * (canvasHeight - 300.0), gapSize, false);
        pipes := pipes + [newPipe];
        lastPipeX := lastPipeX + PipeSpacing;
      }
    }

    /**
     * The pipe loop of a frame: each pipe moves left by `shift`, scores a point
     * when it first clears the bird, and ends the game when it hits the bird;
     * the loop runs on after a hit.
     */
    method AdvancePipes(store: Store, shift: real) returns (cues: seq<Cue>)
      requires store.gamePhase == Playing
      modifies this, store
      ensures bird == old(bird) && lastPipeX == old(lastPipeX)
      ensures pipes == AdvanceAll(old(pipes), shift, bird)
      ensures cues == Repeat(CollisionCue, HitCount(old(pipes), shift, bird))
      ensures store.State() == old(store.State()).(score := old(store.score) + ScoreCount(old(pipes), shift, bird),
                                                    gamePhase := if HitCount(old(pipes), shift, bird) > 0 then GameOver else Playing)
    {
      ghost var spawned := pipes;
      ghost var st0 := store.State();
      cues := [];
      var i := 0;
      while i < |pipes|
        invariant bird == old(bird) && lastPipeX == old(lastPipeX)
        invariant 0 <= i <= |pipes| == |spawned|
        invariant forall j :: 0 <= j < i ==> pipes[j] == Advance(spawned[j], shift, bird)
        invariant forall j :: i <= j < |pipes| ==> pipes[j] == spawned[j]
        invariant store.State() == st0.(score := st0.score + ScoreCount(spawned[..i], shift, bird),
                                        gamePhase := if HitCount(spawned[..i], shift, bird) > 0 then GameOver else Playing)
        invariant cues == Repeat(CollisionCue, HitCount(spawned[..i], shift, bird))
      {
        assert spawned[..i + 1][..i] == spawned[..i];
        var hitCues := AdvancePipe(store, i, shift);
        cues := cues + hitCues;
        i := i + 1;
      }
      assert spawned[..i] == spawned;
    }

    /**
     * The body of the pipe loop for pipe `i`: move it, score it when it first
     * clears the bird, and end the game with a collision cue when it hits the bird.
     */
    method AdvancePipe(store: Store, i: nat, shift: real) returns (cues: seq<Cue>)
      requires i < |pipes|
      modifies this, store
      ensures bird == old(bird) && lastPipeX == old(lastPipeX)
      ensures pipes == old(pipes)[i := Advance(old(pipes)[i], shift, bird)]
      ensures var hit := HitsPipe(bird, Advance(old(pipes)[i], shift, bird));
              cues == (if hit then [CollisionCue] else []) &&
              store.State() == old(store.State()).(score := old(store.score) + (if Scores(old(pipes)[i], shift, bird) then 1 else 0),
                                                   gamePhase := if hit then GameOver else old(store.gamePhase))
    {
      var pipe := pipes[i];
      pipe := pipe.(x := pipe.x - shift);
      if !pipe.passed && pipe.x + PipeWidth < bird.x - bird.radius {
        pipe := pipe.(passed := true);
        store.AddScore(1);
      }
      pipes := pipes[i := pipe];
      cues := [];
      if HitsPipe(bird, pipe) {
        cues := [CollisionCue];
        store.SetGamePhase(GameOver);
      }
    }
  }
}
