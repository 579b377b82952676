/** The worm creatures: the standalone `Worm` entity (`Worm.cs`), a copy of
    the player without damage, recovery or braking at obstacles, and the
    component pair `WormRenderer` / `WormBehavior` that drives an `Entity`. */
module Worms {
  import opened Geometry
  import opened Entities
  import opened Creatures

  /** `Worm`: minimum and maximum speed, steering power, no-input
      acceleration. */
  const WormHandling: Handling := Handling(200.0, 800.0, 1.5, 200.0)

  /** The tail spacing of `Worm`. */
  const WormSegmentSize: real := 30.0

  const WormTailLength: nat := 9

  class Worm {
    var position: Vec2
    var tail: seq<Vec2>
    var facingAngle: real
    var forwardSpeed: real
    var bankPercent: real
    var bankCooldown: real
    var tailFurlPercent: real
    var heldFood: Food?
    var directionalInput: int

    /** The worm invariant: a non-empty tail, bank and furl in range, the
        speed within the clamp range. */
    predicate Valid()
      reads this
    {
      |tail| >= 1 && -1.0 <= bankPercent <= 1.0 && 0.0 <= tailFurlPercent <= 1.0 &&
      WormHandling.minimumSpeed <= forwardSpeed <= WormHandling.maximumSpeed
    }

    function Body(): Motion
      reads this
    {
      Motion(position, facingAngle, forwardSpeed)
    }

    function BankState(): Bank
      reads this
    {
      Bank(bankPercent, bankCooldown)
    }

    /** `new Worm(world)`: facing along the x axis at the minimum speed,
        nine segments at their default position. */
    constructor ()
      ensures Valid() && heldFood == null
      ensures position == Zero && facingAngle == 0.0
      ensures forwardSpeed == WormHandling.minimumSpeed
      ensures tail == AllAt(Zero, WormTailLength)
      ensures bankPercent == 0.0 && bankCooldown == 0.0 && tailFurlPercent == 0.0
      ensures directionalInput == 0
    {
      position := Zero;
      facingAngle := 0.0;
      forwardSpeed := WormHandling.minimumSpeed;
      tail := AllAt(Zero, WormTailLength);
      bankPercent := 0.0;
      bankCooldown := 0.0;
      tailFurlPercent := 0.0;
      heldFood := null;
      directionalInput := 0;
    }

    /** The `BankPercent` setter. */
    method SetBankPercent(value: real)
      modifies this`bankPercent, this`bankCooldown
      ensures BankState() == SetBank(value)
    {
      bankPercent := Clamp(value, -1.0, 1.0);
      bankCooldown := 0.1;
    }

    /** One frame: steer and move, bank with the input, carry or pick up
        food, get pushed out of the obstacles (at unchanged speed), then
        update the tail. As for the player, the food step is performed
        before the worm's own fields are written. */
    method Update(m: MathLib, dt: real, foods: seq<Food>, obstacles: seq<Obstacle>)
      requires Valid()
      modifies this, foods, heldFood
      ensures Valid()
      ensures var steered := Steer(m, WormHandling, old(Body()), old(directionalInput), dt);
              Body() == PushOutAll(m, steered, obstacles, false)
      ensures var steered := Steer(m, WormHandling, old(Body()), old(directionalInput), dt);
              BankState() == Decayed(Banked(old(BankState()), old(directionalInput), dt, steered.speed), dt)
      ensures tail == Followed(m, position, old(tail), WormSegmentSize)
      ensures tailFurlPercent == Clamp(old(tailFurlPercent) - dt * 2.0, 0.0, 1.0)
      ensures old(heldFood) == null ==>
              PickedUp(foods, Steer(m, WormHandling, old(Body()), old(directionalInput), dt).position,
                       null, heldFood)
      ensures var steered := Steer(m, WormHandling, old(Body()), old(directionalInput), dt);
              var bank := Banked(old(BankState()), old(directionalInput), dt, steered.speed);
              old(heldFood) != null ==>
                heldFood == old(heldFood) &&
                heldFood.position == CarriedFoodPosition(m, steered.position, old(tail[0]), bank.percent) &&
                heldFood.isEaten == old(heldFood.isEaten) && heldFood.flame == old(heldFood.flame) &&
                heldFood.flash == old(heldFood.flash) && heldFood.shineTime == old(heldFood.shineTime) &&
                heldFood.flaggedForDestroy == old(heldFood.flaggedForDestroy) &&
                forall f :: f in foods && f != heldFood ==> unchanged(f)
      ensures directionalInput == old(directionalInput)
    {
      var steered := Steer(m, WormHandling, Body(), directionalInput, dt);
      var bank := Banked(BankState(), directionalInput, dt, steered.speed);
      heldFood := CarryOrPickUp(m, foods, steered.position, tail[0], bank.percent, heldFood);
      Move(m, dt);
      BankStaysInRange(bank, directionalInput, dt, steered.speed);
      PushOutAllSpeed(m, steered, obstacles, false);
      PushOutOfObstacles(m, obstacles);
      UpdateDrawingRelatedStuff(m, dt);
    }

    /** Steer, move and bank with the input. */
    method Move(m: MathLib, dt: real)
      modifies this`facingAngle, this`position, this`forwardSpeed, this`bankPercent, this`bankCooldown
      ensures Body() == Steer(m, WormHandling, old(Body()), directionalInput, dt)
      ensures BankState() == Banked(old(BankState()), directionalInput, dt, forwardSpeed)
    {
      var steered := Steer(m, WormHandling, Body(), directionalInput, dt);
      facingAngle := steered.facing;
      position := steered.position;
      forwardSpeed := steered.speed;
      if directionalInput != 0 {
        SetBankPercent(bankPercent + BankDelta(directionalInput, dt, forwardSpeed));
      }
    }

    /** The obstacle loop: the worm keeps its speed. */
    method PushOutOfObstacles(m: MathLib, obstacles: seq<Obstacle>)
      modifies this`position, this`facingAngle
      ensures Body() == PushOutAll(m, old(Body()), obstacles, false)
    {
      var pushed := PushOut(m, Body(), obstacles, false);
      PushOutAllSpeed(m, Body(), obstacles, false);
      position, facingAngle := pushed.position, pushed.facing;
    }

    /** The tail pass, the furl decay and the bank decay. */
    method UpdateDrawingRelatedStuff(m: MathLib, dt: real)
      modifies this`tail, this`tailFurlPercent, this`bankCooldown, this`bankPercent
      ensures tail == Followed(m, position, old(tail), WormSegmentSize)
      ensures tailFurlPercent == Clamp(old(tailFurlPercent) - dt * 2.0, 0.0, 1.0)
      ensures BankState() == Decayed(old(BankState()), dt)
    {
      tail := FollowLeader(m, position, tail, WormSegmentSize);
      tailFurlPercent := Clamp(tailFurlPercent - dt * 2.0, 0.0, 1.0);
      if bankCooldown > 0.0 {
        bankCooldown := bankCooldown - dt;
      } else {
        bankPercent := bankPercent * 0.999;
      }
    }

    /** `Jet()` has an empty body for the worm. */
    method Jet()
    {
    }

    /** `DeleteFood()`. */
    method DeleteFood()
      modifies this`heldFood
      ensures heldFood == null
    {
      heldFood := null;
    }
  }

  /** The worm's speed after a frame is the clamped speed, whatever the
      obstacles: push-out leaves it alone. */
  lemma WormSpeedAfterUpdate(m: MathLib, body: Motion, input: int, dt: real, obstacles: seq<Obstacle>)
    ensures var steered := Steer(m, WormHandling, body, input, dt);
            PushOutAll(m, steered, obstacles, false).speed == steered.speed &&
            WormHandling.minimumSpeed <= steered.speed <= WormHandling.maximumSpeed
  {
    PushOutAllSpeed(m, Steer(m, WormHandling, body, input, dt), obstacles, false);
  }

  /** The tail spacing of `WormRenderer`. */
  const RendererSegmentSize: real := 25.0

  const RendererTailLength: nat := 6

  /** `WormRenderer`: a six-segment tail that follows its entity. */
  class WormRenderer {
    const entity: Entity
    var tail: seq<Vec2>
    var tailFurlPercent: real
    /** `BankPercent`, which `WormBehavior` writes; the property is not
        declared in `WormRenderer.cs`, so it is a plain stored value here. */
    var bankPercent: real

    /** The renderer invariant: exactly six segments, furl in [0, 1]. */
    predicate Valid()
      reads this
    {
      |tail| == RendererTailLength && 0.0 <= tailFurlPercent <= 1.0
    }

    constructor (entity: Entity)
      ensures Valid() && this.entity == entity
      ensures tail == AllAt(Zero, RendererTailLength) && tailFurlPercent == 0.0 && bankPercent == 0.0
    {
      this.entity := entity;
      tail := AllAt(Zero, RendererTailLength);
      tailFurlPercent := 0.0;
      bankPercent := 0.0;
    }

    /** `Update`: the tail follows the entity position, the furl decays. */
    method Update(m: MathLib, dt: real)
      requires Valid()
      modifies this`tail, this`tailFurlPercent
      ensures Valid()
      ensures tail == Followed(m, entity.position, old(tail), RendererSegmentSize)
      ensures tailFurlPercent == Clamp(old(tailFurlPercent) - dt * 2.0, 0.0, 1.0)
    {
      tail := FollowLeader(m, entity.position, tail, RendererSegmentSize);
      tailFurlPercent := Clamp(tailFurlPercent - dt * 2.0, 0.0, 1.0);
    }

    /** `Furl()`: fully furled. */
    method Furl()
      requires Valid()
      modifies this`tailFurlPercent
      ensures Valid() && tailFurlPercent == 1.0
    {
      tailFurlPercent := 1.0;
    }
  }

  /** `WormBehavior`: minimum and maximum speed and steering power; the
      speed falls by 100 per second with or without input. */
  const BehaviorHandling: Handling := Handling(200.0, 800.0, 1.5, -Deceleration)

  /** `WormBehavior`: steers the entity and banks its renderer. */
  class WormBehavior {
    const entity: Entity
    const renderer: WormRenderer
    var facingAngle: real
    var forwardSpeed: real
    var directionalInput: int

    function Body(): Motion
      reads this, entity
    {
      Motion(entity.position, facingAngle, forwardSpeed)
    }

    constructor (entity: Entity, renderer: WormRenderer)
      ensures this.entity == entity && this.renderer == renderer
      ensures facingAngle == 0.0 && forwardSpeed == BehaviorHandling.minimumSpeed
      ensures directionalInput == 0
    {
      this.entity := entity;
      this.renderer := renderer;
      facingAngle := 0.0;
      forwardSpeed := BehaviorHandling.minimumSpeed;
      directionalInput := 0;
    }

    /** `Update`: steer the entity, decay and clamp the speed, and bank the
        renderer (by a clamped speed) only with input. */
    method Update(m: MathLib, dt: real)
      modifies this`facingAngle, this`forwardSpeed, entity`position, renderer`bankPercent
      ensures Body() == Steer(m, BehaviorHandling, old(Body()), directionalInput, dt)
      ensures renderer.bankPercent ==
              (if directionalInput != 0
               then old(renderer.bankPercent) + BankDelta(directionalInput, dt, forwardSpeed)
               else old(renderer.bankPercent))
    {
      var steered := Steer(m, BehaviorHandling, Body(), directionalInput, dt);
      facingAngle := steered.facing;
      entity.position := steered.position;
      forwardSpeed := steered.speed;
      if directionalInput != 0 {
        renderer.bankPercent := renderer.bankPercent + BankDelta(directionalInput, dt, forwardSpeed);
      }
    }

    /** `Jet()`: an eighth of the maximum speed more (the clamp of the next
        `Update` may take it back), and the renderer furls. */
    method Jet()
      requires renderer.Valid()
      modifies this`forwardSpeed, renderer`tailFurlPercent
      ensures forwardSpeed == old(forwardSpeed) + BehaviorHandling.maximumSpeed / 8.0
      ensures renderer.Valid() && renderer.tailFurlPercent == 1.0
    {
      forwardSpeed := forwardSpeed + BehaviorHandling.maximumSpeed / 8.0;
      renderer.Furl();
    }
  }

  /** The behaviour's speed after `Update` is the speed less `100 * dt`,
      clamped to [200, 800] (a jet above 800 is cut back); the facing turns
      by the input at the speed from before the decay. */
  lemma BehaviorSteering(m: MathLib, body: Motion, input: int, dt: real)
    ensures var r := Steer(m, BehaviorHandling, body, input, dt);
            r.speed == Clamp(body.speed - dt * 100.0, 200.0, 800.0) &&
            r.facing == body.facing + (input as real) * 1.5 * (1.0 + body.speed / 800.0) * dt &&
            200.0 <= r.speed <= 800.0
  {
  }
}
