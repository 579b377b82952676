/** `Worker.cs`, `WorkerState.cs`, `WalkingToDestinationState.cs` and
    `WanderState.cs`: a worker that walks to a destination, and once there
    wanders forever, alternating between standing and moving. */
module Workers {
  import opened Geometry
  import opened Entities
  import opened Sprites

  /** Where a new worker walks first. */
  const FirstDestination: Vec2 := Vec2(500.0, 500.0)

  /** The initial `Worker.Speed`. */
  const DefaultWorkerSpeed: real := 3.0

  /** A walking worker has arrived once it is closer than this. */
  const ArrivalDistance: real := 1.0

  /** The speed of a wandering worker while it moves. */
  const WanderSpeed: real := 0.25

  /** What a state of each kind keeps: the destination and whether it was
      reached, or the wait timer and whether the worker is moving. */
  datatype StateKind =
    | Walking(destination: Vec2, hasArrived: bool)
    | Wandering(waitTimer: real, isMoving: bool)

  /** The random draws a frame may use: the wander direction, as a fraction
      of a turn, and a fresh wait time, which the generator takes from
      [1, 3). */
  datatype Draws = Draws(turn: real, wait: real)

  /** The position after moving with `velocity` for `dt` seconds at
      `speed` (the velocity is per sixtieth of a second). */
  function Moved(p: Vec2, velocity: Vec2, dt: real, speed: real): Vec2 {
    Add(p, Scale(velocity, dt * 60.0 * speed))
  }

  /** The direction a wandering worker sets off in. */
  function WanderVelocity(m: MathLib, turn: real): Vec2 {
    Scale(Polar(m, 1.0, turn * Pi * 2.0), WanderSpeed)
  }

  /** A wandering worker that moves does so at the wander speed. */
  lemma WanderVelocityLength(m: MathLib, turn: real)
    requires TrigSound(m)
    ensures LengthSq(WanderVelocity(m, turn)) == Sq(WanderSpeed)
  {
    PolarLength(m, 1.0, turn * Pi * 2.0);
    LengthSqScale(Polar(m, 1.0, turn * Pi * 2.0), WanderSpeed);
  }

  /** The walk state after one `Update`: it has arrived for good once the
      worker came within the arrival distance. */
  function WalkStep(k: StateKind, position: Vec2): (r: StateKind)
    requires k.Walking?
    ensures r.Walking? && r.destination == k.destination
    ensures r.hasArrived <==> k.hasArrived || ShorterThan(Sub(k.destination, position), ArrivalDistance)
  {
    if k.hasArrived then k
    else k.(hasArrived := ShorterThan(Sub(k.destination, position), ArrivalDistance))
  }

  /** The wander state after one `Update`: an expired timer flips between
      standing and moving and draws a new wait; the timer then runs down. */
  function WanderStep(k: StateKind, dt: real, draws: Draws): (r: StateKind)
    requires k.Wandering?
    ensures r.Wandering?
    ensures k.waitTimer < 0.0 ==> r.isMoving == !k.isMoving && r.waitTimer == draws.wait - dt
    ensures 0.0 <= k.waitTimer ==> r.isMoving == k.isMoving && r.waitTimer == k.waitTimer - dt
  {
    if k.waitTimer < 0.0 then Wandering(draws.wait - dt, !k.isMoving)
    else Wandering(k.waitTimer - dt, k.isMoving)
  }

  /** With waits drawn from [1, 3) and frames shorter than a second, the
      timer never expires on two frames in a row: a wander phase lasts at
      least one frame. */
  lemma WanderPhasesLast(k: StateKind, dt: real, draws: Draws)
    requires k.Wandering? && k.waitTimer < 0.0
    requires 1.0 <= draws.wait && 0.0 <= dt < 1.0
    ensures 0.0 <= WanderStep(k, dt, draws).waitTimer
  {
  }

  /** The state of a worker (`WorkerState` and its two subclasses): the
      shared finished flag and the kind's own data. */
  class WorkerState {
    var isFinished: bool
    var kind: StateKind

    /** `new WalkingToDestinationState(worker, entity, destination)`. */
    constructor WalkTo(destination: Vec2)
      ensures !isFinished && kind == Walking(destination, false)
    {
      isFinished := false;
      kind := Walking(destination, false);
    }

    /** `new WanderState(worker, entity)`: standing, waiting for `wait`
        (the constructor's `NextWaitTimer` draw). */
    constructor Wander(wait: real)
      ensures !isFinished && kind == Wandering(wait, false)
    {
      isFinished := false;
      kind := Wandering(wait, false);
    }

    /** `MarkAsFinished()`: the flag is raised; nothing lowers it. */
    method MarkAsFinished()
      modifies this`isFinished
      ensures isFinished
    {
      isFinished := true;
    }
  }

  /** `Worker`: moves its entity by its velocity, as its state directs. */
  class Worker {
    const entity: Entity
    const spriteRenderer: SpriteRenderer
    var speed: real
    var velocity: Vec2
    var state: WorkerState

    /** Between frames: a walking worker has not arrived (an arrival
        replaces the state in the same frame), a wandering one stands still
        or moves at the wander speed as its state says, and neither state is
        finished. */
    ghost predicate Valid()
      reads this, state
    {
      !state.isFinished &&
      (state.kind.Walking? ==> !state.kind.hasArrived) &&
      (state.kind.Wandering? ==>
         (state.kind.isMoving ==> LengthSq(velocity) == Sq(WanderSpeed)) &&
         (!state.kind.isMoving ==> velocity == Zero))
    }

    /** `new Worker(entity, spriteRenderer)`: at rest, walking to the first
        destination. */
    constructor (e: Entity, renderer: SpriteRenderer)
      ensures entity == e && spriteRenderer == renderer
      ensures speed == DefaultWorkerSpeed && velocity == Zero
      ensures fresh(state) && state.kind == Walking(FirstDestination, false)
      ensures Valid()
    {
      entity := e;
      spriteRenderer := renderer;
      speed := DefaultWorkerSpeed;
      velocity := Zero;
      state := new WorkerState.WalkTo(FirstDestination);
    }

    /** `WalkingToDestinationState.Update`: on arrival the worker stops and
        the state finishes; otherwise it heads straight for the destination
        at unit speed, showing the walk animation. */
    method UpdateWalking(m: MathLib)
      requires state.kind.Walking?
      modifies state, this`velocity, spriteRenderer`currentAnimation, spriteRenderer`time
      ensures state.kind == WalkStep(old(state.kind), entity.position)
      ensures state.kind.hasArrived ==> velocity == Zero && state.isFinished
      ensures state.kind.hasArrived ==> spriteRenderer.currentAnimation == old(spriteRenderer.currentAnimation)
      ensures state.kind.hasArrived ==> spriteRenderer.time == old(spriteRenderer.time)
      ensures !state.kind.hasArrived ==>
                velocity == Normalized(m, Sub(state.kind.destination, entity.position)) &&
                state.isFinished == old(state.isFinished) &&
                spriteRenderer.currentAnimation == WorkerWalkAnimation &&
                spriteRenderer.time == TimeAfterSet(old(spriteRenderer.currentAnimation),
                                                    old(spriteRenderer.time), WorkerWalkAnimation)
      ensures !state.kind.hasArrived && SqrtSound(m) ==> LengthSq(velocity) == 1.0
    {
      if !state.kind.hasArrived {
        var displacement := Sub(state.kind.destination, entity.position);
        if ShorterThan(displacement, ArrivalDistance) {
          state.kind := state.kind.(hasArrived := true);
        } else {
          velocity := Normalized(m, displacement);
          spriteRenderer.SetAnimation(WorkerWalkAnimation);
          if SqrtSound(m) {
            NormalizedLength(m, displacement);
          }
        }
      }
      if state.kind.hasArrived {
        velocity := Zero;
        state.MarkAsFinished();
      }
    }

    /** `WanderState.Update`: an expired timer stops a moving worker or sets
        a standing one off in the drawn direction; the animation shows
        whether it moves. */
    method UpdateWandering(m: MathLib, dt: real, draws: Draws)
      requires state.kind.Wandering?
      modifies state`kind, this`velocity, spriteRenderer`currentAnimation, spriteRenderer`time
      ensures state.kind == WanderStep(old(state.kind), dt, draws)
      ensures old(state.kind.waitTimer) < 0.0 && old(state.kind.isMoving) ==> velocity == Zero
      ensures old(state.kind.waitTimer) < 0.0 && !old(state.kind.isMoving) ==> velocity == WanderVelocity(m, draws.turn)
      ensures 0.0 <= old(state.kind.waitTimer) ==> velocity == old(velocity)
      ensures spriteRenderer.currentAnimation == if 0.0 < LengthSq(velocity) then WorkerWalkAnimation else WorkerIdleAnimation
      ensures spriteRenderer.time == TimeAfterSet(old(spriteRenderer.currentAnimation), old(spriteRenderer.time),
                                                  spriteRenderer.currentAnimation)
    {
      if state.kind.waitTimer < 0.0 {
        if state.kind.isMoving {
          velocity := Zero;
        } else {
          velocity := WanderVelocity(m, draws.turn);
        }
        state.kind := Wandering(draws.wait, !state.kind.isMoving);
      }
      if 0.0 < LengthSq(velocity) {
        spriteRenderer.SetAnimation(WorkerWalkAnimation);
      } else {
        spriteRenderer.SetAnimation(WorkerIdleAnimation);
      }
      state.kind := state.kind.(waitTimer := state.kind.waitTimer - dt);
    }

    /** The facing after moving with `velocity`: left when it points left,
        right when it points right, unchanged when it is vertical. */
    method Face()
      modifies spriteRenderer`flipX
      ensures velocity.x < 0.0 ==> spriteRenderer.flipX
      ensures velocity.x > 0.0 ==> !spriteRenderer.flipX
      ensures velocity.x == 0.0 ==> spriteRenderer.flipX == old(spriteRenderer.flipX)
    {
      if velocity.x < 0.0 {
        spriteRenderer.flipX := true;
      }
      if velocity.x > 0.0 {
        spriteRenderer.flipX := false;
      }
    }

    /** `Worker.Update(dt)`: the state updates; a finished state is
        replaced by a new wander state (`DetermineNewState`, waiting
        `firstWait`); the sprite faces the motion and the entity moves. */
    method Update(m: MathLib, dt: real, draws: Draws, firstWait: real)
      requires Valid() && TrigSound(m)
      modifies this, state, spriteRenderer, entity
      ensures Valid()
      ensures old(state.kind).Walking? && WalkStep(old(state.kind), old(entity.position)).hasArrived ==>
                fresh(state) && state.kind == Wandering(firstWait, false) && velocity == Zero
      ensures old(state.kind).Walking? && !WalkStep(old(state.kind), old(entity.position)).hasArrived ==>
                state == old(state) && state.kind == WalkStep(old(state.kind), old(entity.position)) &&
                velocity == Normalized(m, Sub(state.kind.destination, old(entity.position)))
      ensures old(state.kind).Wandering? ==> state == old(state) && state.kind == WanderStep(old(state.kind), dt, draws)
      ensures old(state.kind).Wandering? && old(state.kind.waitTimer) < 0.0 ==>
                velocity == if old(state.kind.isMoving) then Zero else WanderVelocity(m, draws.turn)
      ensures old(state.kind).Wandering? && 0.0 <= old(state.kind.waitTimer) ==> velocity == old(velocity)
      ensures old(state.kind).Walking? && WalkStep(old(state.kind), old(entity.position)).hasArrived ==>
                spriteRenderer.currentAnimation == old(spriteRenderer.currentAnimation) &&
                spriteRenderer.time == old(spriteRenderer.time)
      ensures old(state.kind).Walking? && !WalkStep(old(state.kind), old(entity.position)).hasArrived ==>
                spriteRenderer.currentAnimation == WorkerWalkAnimation
      ensures old(state.kind).Wandering? ==>
                spriteRenderer.currentAnimation == if 0.0 < LengthSq(velocity) then WorkerWalkAnimation else WorkerIdleAnimation
      ensures old(state.kind).Wandering? || !WalkStep(old(state.kind), old(entity.position)).hasArrived ==>
                spriteRenderer.time == TimeAfterSet(old(spriteRenderer.currentAnimation), old(spriteRenderer.time),
                                                    spriteRenderer.currentAnimation)
      ensures velocity.x < 0.0 ==> spriteRenderer.flipX
      ensures velocity.x > 0.0 ==> !spriteRenderer.flipX
      ensures velocity.x == 0.0 ==> spriteRenderer.flipX == old(spriteRenderer.flipX)
      ensures spriteRenderer.framesPerSecond == old(spriteRenderer.framesPerSecond)
      ensures entity.position == Moved(old(entity.position), velocity, dt, speed)
      ensures entity.flaggedForDestroy == old(entity.flaggedForDestroy) &&
              entity.scale == old(entity.scale) && entity.depth == old(entity.depth)
      ensures speed == old(speed)
    {
      if state.kind.Walking? {
        UpdateWalking(m);
      } else {
        UpdateWandering(m, dt, draws);
        if state.kind.isMoving {
          WanderVelocityLength(m, draws.turn);
        }
      }
      if state.isFinished {
        state := new WorkerState.Wander(firstWait);
      }
      Face();
      entity.position := Moved(entity.position, velocity, dt, speed);
    }
  }
}
