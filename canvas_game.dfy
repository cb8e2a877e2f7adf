/**
 * The canvas component of the seconds-based game (variant A): the flap
 * handler, which dispatches on the store status, and the per-frame loop,
 * which advances the store only while it is running and hands a detected
 * collision to the store. Drawing is not part of this model.
 */
module CanvasGame {
  import opened Wrappers
  import opened GameTypes
  import GamePhysics
  import opened CanvasStore

  /** The store action a flap (space bar or click) asks for in each status. */
  function JumpDispatch(status: Status): (a: Option<Action>)
    ensures a == Some(StartGameAction) <==> status == Ready
    ensures a == Some(JumpAction) <==> status == Running
    ensures a == Some(ResetGameAction) <==> status == GameOver
    ensures a.None? <==> status == Hit
  {
    match status
    case Ready => Some(StartGameAction)
    case Running => Some(JumpAction)
    case GameOver => Some(ResetGameAction)
    case Hit => None
  }

  method HandleJump(store: Store)
    modifies store
    ensures old(store.status) == Ready ==>
              store.State() == old(store.State()).(status := Running, bird := CreateInitialBird(store.config), pipes := [], score := 0)
    ensures old(store.status) == Running ==>
              store.State() == old(store.State()).(bird := old(store.bird).(velocity := store.config.jumpImpulse))
    ensures old(store.status) == GameOver ==>
              store.State() == CreateInitialState(store.config).(highScore := old(store.highScore))
    ensures old(store.status) == Hit ==> store.State() == old(store.State())
    ensures store.config == old(store.config)
  {
    match JumpDispatch(store.status)
    case Some(StartGameAction) => store.StartGame();
    case Some(JumpAction) => store.Jump();
    case Some(ResetGameAction) => store.ResetGame();
    case _ =>
  }

  /** What can happen to the status through this component. */
  datatype Event =
    | Flap                      // space bar or click
    | Frame(collided: bool)     // one animation frame; `collided` is the collision test's verdict
    | ScheduledReset            // the delayed reset queued by a frame in `Hit`

  function CanvasStep(status: Status, e: Event): Status {
    match e
    case Flap =>
      (match JumpDispatch(status)
       case Some(a) => StatusAfter(a, status)
       case None => status)
    case Frame(collided) =>
      if status == Running then StatusAfter(if collided then SetCollisionAction else UpdatePhysicsAction, status)
      else status
    case ScheduledReset => StatusAfter(ResetGameAction, status)
  }

  function Run(status: Status, events: seq<Event>): Status
    decreases |events|
  {
    if |events| == 0 then status else Run(CanvasStep(status, events[0]), events[1..])
  }

  /** `Hit` is left only for `Ready`: flaps and frames leave it alone, the scheduled reset ends it. */
  lemma HitLeadsOnlyToReady(e: Event)
    ensures CanvasStep(Hit, e) == Hit || CanvasStep(Hit, e) == Ready
    ensures CanvasStep(Hit, e) == Ready <==> e == ScheduledReset
  {
  }

  /** No sequence of flaps, frames and resets ever reaches `GameOver` from another status. */
  lemma {:induction false} GameOverUnreachable(status: Status, events: seq<Event>)
    requires status != GameOver
    ensures Run(status, events) != GameOver
    decreases |events|
  {
    if |events| > 0 {
      StatusTransitions(UpdatePhysicsAction, status);
      StatusTransitions(SetCollisionAction, status);
      StatusTransitions(ResetGameAction, status);
      match JumpDispatch(status) {
        case Some(a) => StatusTransitions(a, status);
        case None =>
      }
      GameOverUnreachable(CanvasStep(status, events[0]), events[1..]);
    }
  }

  /** The time between two frame stamps in seconds, not capped. */
  function ElapsedSeconds(lastTime: real, currentTime: real): real {
    (currentTime - lastTime) / 1000.0
  }

  /** The frame loop's own state: the previous frame's time stamp and the crash flash timer. */
  class FrameLoop {
    var lastTime: real
    var collisionFlash: real

    constructor (now: real)
      ensures lastTime == now && collisionFlash == 0.0
    {
      lastTime := now;
      collisionFlash := 0.0;
    }

    /**
     * One animation frame at `currentTime` milliseconds. The elapsed time is not
     * capped. The collision test looks at the bird and pipes of the frame's
     * snapshot, taken before the store is advanced. The result says whether a
     * delayed reset was scheduled.
     */
    method GameLoop(store: Store, currentTime: real, r: real) returns (resetScheduled: bool)
      requires 0.0 <= r < 1.0
      modifies this, store
      ensures lastTime == currentTime
      ensures resetScheduled <==> old(store.status) == Hit
      ensures old(store.status) != Running ==> store.State() == old(store.State())
      ensures old(store.status) == Running ==>
                var collision := GamePhysics.CheckAllCollisions(old(store.bird), old(store.pipes), old(store.config));
                store.State() == Tick(old(store.State()), old(store.config), ElapsedSeconds(old(lastTime), currentTime), r)
                                   .(status := if collision.collided then Hit else Running)
      ensures old(store.status) != Running ==>
                collisionFlash == if old(collisionFlash) > 0.0 then old(collisionFlash) - ElapsedSeconds(old(lastTime), currentTime)
                                  else old(collisionFlash)
      ensures old(store.status) == Running ==>
                var flash := if GamePhysics.CheckAllCollisions(old(store.bird), old(store.pipes), old(store.config)).collided
                             then 0.3 else old(collisionFlash);
                collisionFlash == if flash > 0.0 then flash - ElapsedSeconds(old(lastTime), currentTime) else flash
      ensures store.status == CanvasStep(old(store.status),
                Frame(GamePhysics.CheckAllCollisions(old(store.bird), old(store.pipes), old(store.config)).collided))
      ensures store.config == old(store.config)
    {
      var deltaTime := ElapsedSeconds(lastTime, currentTime);
      lastTime := currentTime;

      var status := store.status;
      if status == Running {
        RunningFrame(store, deltaTime, r);
      }

      if collisionFlash > 0.0 {
        collisionFlash := collisionFlash - deltaTime;
      }

      resetScheduled := status == Hit;
    }

    /**
     * The running part of a frame: advance the store, then test the bird and
     * pipes of the snapshot taken before the advance; a collision moves the store
     * to `Hit` and starts the flash.
     */
    method RunningFrame(store: Store, deltaTime: real, r: real)
      requires 0.0 <= r < 1.0 && store.status == Running
      modifies this, store
      ensures lastTime == old(lastTime)
      ensures var collision := GamePhysics.CheckAllCollisions(old(store.bird), old(store.pipes), old(store.config));
              store.State() == Tick(old(store.State()), old(store.config), deltaTime, r)
                                 .(status := if collision.collided then Hit else Running) &&
              collisionFlash == if collision.collided then 0.3 else old(collisionFlash)
      ensures store.config == old(store.config)
    {
      var bird, pipes, config := store.bird, store.pipes, store.config;
      store.UpdatePhysics(deltaTime, r);
      var collision := GamePhysics.CheckAllCollisions(bird, pipes, config);
      if collision.collided {
        store.SetCollision(if collision.kind.Some? then collision.kind.value else PipeCollision);
        collisionFlash := 0.3;
      }
    }
  }
}
