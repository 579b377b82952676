/** The player's creature (`Player.cs`): an arrow head followed by a tail
    of segments, steered left and right, that carries one food at a time
    and loses a segment on every hit. */
module Players {
  import opened Geometry
  import opened Entities
  import opened Creatures

  /** Minimum and maximum speed, steering power, no-input acceleration. */
  const PlayerHandling: Handling := Handling(200.0, 1200.0, 1.5, 400.0)

  /** `_maxSegmentSize`. */
  const PlayerSegmentSize: real := 30.0

  /** The constructor's tail length. */
  const PlayerTailLength: nat := 9

  /** The radius of `IsHurtAt`. */
  const HurtRadius: real := 50.0

  class Player {
    var flaggedForDestroy: bool
    var position: Vec2
    /** The positions of `_tailSegments`, first segment first. */
    var tail: seq<Vec2>
    var facingAngle: real
    var forwardSpeed: real
    var bankPercent: real
    var bankCooldown: real
    var tailFurlPercent: real
    var recoveryCooldown: real
    var heldFood: Food?
    /** `DirectionalInput`, set by the session each frame (-1, 0 or 1). */
    var directionalInput: int

    /** The player invariant: a tail is never empty, the bank and furl
        values stay in their ranges, and the speed is positive and at most
        the maximum. */
    predicate Valid()
      reads this
    {
      |tail| >= 1 && -1.0 <= bankPercent <= 1.0 && 0.0 <= tailFurlPercent <= 1.0 &&
      0.0 < forwardSpeed <= PlayerHandling.maximumSpeed
    }

    /** The head, heading and speed as one value. */
    function Body(): Motion
      reads this
    {
      Motion(position, facingAngle, forwardSpeed)
    }

    /** `new Player(world)`: facing up at the minimum speed, with nine tail
        segments at their default position. */
    constructor ()
      ensures Valid() && !flaggedForDestroy && heldFood == null
      ensures position == Zero && facingAngle == -Pi / 2.0
      ensures forwardSpeed == PlayerHandling.minimumSpeed
      ensures tail == AllAt(Zero, PlayerTailLength)
      ensures bankPercent == 0.0 && bankCooldown == 0.0 && tailFurlPercent == 0.0
      ensures recoveryCooldown == 0.0 && directionalInput == 0
    {
      flaggedForDestroy := false;
      position := Zero;
      facingAngle := -Pi / 2.0;
      forwardSpeed := PlayerHandling.minimumSpeed;
      tail := AllAt(Zero, PlayerTailLength);
      bankPercent := 0.0;
      bankCooldown := 0.0;
      tailFurlPercent := 0.0;
      recoveryCooldown := 0.0;
      heldFood := null;
      directionalInput := 0;
    }

    /** `MoveAllTailSegmentsToHead`: every segment at the head, the tail
        length kept. */
    method MoveAllTailSegmentsToHead()
      modifies this`tail
      ensures tail == AllAt(position, |old(tail)|)
    {
      var i := 0;
      while i < |tail|
        invariant 0 <= i <= |tail| && |tail| == |old(tail)|
        invariant forall j :: 0 <= j < i ==> tail[j] == position
      {
        tail := tail[i := position];
        i := i + 1;
      }
    }

    /** The bank value and its cooldown as one value. */
    function BankState(): Bank
      reads this
    {
      Bank(bankPercent, bankCooldown)
    }

    /** The `BankPercent` setter. */
    method SetBankPercent(value: real)
      modifies this`bankPercent, this`bankCooldown
      ensures BankState() == SetBank(value)
    {
      bankPercent := Clamp(value, -1.0, 1.0);
      bankCooldown := 0.1;
    }

    /** One frame: steer and move, count the recovery down, bank with the
        input, carry the held food or pick one up, get pushed out of the
        obstacles (at half speed each time), then update the tail. `foods`
        and `obstacles` are the world's entities of those types, in entity
        order. The food step reads only the new head, the first segment and
        the new bank, so the model performs it before writing the player's
        own fields. */
    method Update(m: MathLib, dt: real, foods: seq<Food>, obstacles: seq<Obstacle>)
      requires Valid()
      modifies this, foods, heldFood
      ensures Valid()
      ensures var steered := Steer(m, PlayerHandling, old(Body()), old(directionalInput), dt);
              Body() == PushOutAll(m, steered, obstacles, true)
      ensures var steered := Steer(m, PlayerHandling, old(Body()), old(directionalInput), dt);
              BankState() == Decayed(Banked(old(BankState()), old(directionalInput), dt, steered.speed), dt)
      ensures recoveryCooldown ==
              (if old(recoveryCooldown) > 0.0 then old(recoveryCooldown) - dt else old(recoveryCooldown))
      ensures tail == Followed(m, position, old(tail), PlayerSegmentSize)
      ensures tailFurlPercent == Clamp(old(tailFurlPercent) - dt * 2.0, 0.0, 1.0)
      ensures old(heldFood) == null ==>
              PickedUp(foods, Steer(m, PlayerHandling, old(Body()), old(directionalInput), dt).position,
                       null, heldFood)
      ensures var steered := Steer(m, PlayerHandling, old(Body()), old(directionalInput), dt);
              var bank := Banked(old(BankState()), old(directionalInput), dt, steered.speed);
              old(heldFood) != null ==>
                heldFood == old(heldFood) &&
                heldFood.position == CarriedFoodPosition(m, steered.position, old(tail[0]), bank.percent) &&
                heldFood.isEaten == old(heldFood.isEaten) && heldFood.flame == old(heldFood.flame) &&
                heldFood.flash == old(heldFood.flash) && heldFood.shineTime == old(heldFood.shineTime) &&
                heldFood.flaggedForDestroy == old(heldFood.flaggedForDestroy) &&
                forall f :: f in foods && f != heldFood ==> unchanged(f)
      ensures flaggedForDestroy == old(flaggedForDestroy) && directionalInput == old(directionalInput)
    {
      var steered := Steer(m, PlayerHandling, Body(), directionalInput, dt);
      var bank := Banked(BankState(), directionalInput, dt, steered.speed);
      heldFood := CarryOrPickUp(m, foods, steered.position, tail[0], bank.percent, heldFood);
      Advance(m, dt, obstacles);
    }

    /** `Update` without the food step: move, get pushed out, update the
        tail. */
    method Advance(m: MathLib, dt: real, obstacles: seq<Obstacle>)
      requires Valid()
      modifies this`facingAngle, this`position, this`forwardSpeed, this`recoveryCooldown,
               this`bankPercent, this`bankCooldown, this`tail, this`tailFurlPercent
      ensures Valid()
      ensures var steered := Steer(m, PlayerHandling, old(Body()), directionalInput, dt);
              Body() == PushOutAll(m, steered, obstacles, true) &&
              BankState() == Decayed(Banked(old(BankState()), directionalInput, dt, steered.speed), dt)
      ensures recoveryCooldown ==
              (if old(recoveryCooldown) > 0.0 then old(recoveryCooldown) - dt else old(recoveryCooldown))
      ensures tail == Followed(m, position, old(tail), PlayerSegmentSize)
      ensures tailFurlPercent == Clamp(old(tailFurlPercent) - dt * 2.0, 0.0, 1.0)
    {
      var steered := Steer(m, PlayerHandling, Body(), directionalInput, dt);
      var bank := Banked(BankState(), directionalInput, dt, steered.speed);
      Move(m, dt);
      BankStaysInRange(bank, directionalInput, dt, steered.speed);
      PushOutAllSpeed(m, steered, obstacles, true);
      PushOutOfObstacles(m, obstacles);
      UpdateDrawingRelatedStuff(m, dt);
    }

    /** The first part of `Update`: steer, move, count the recovery down
        and bank with the input. */
    method Move(m: MathLib, dt: real)
      modifies this`facingAngle, this`position, this`forwardSpeed, this`recoveryCooldown,
               this`bankPercent, this`bankCooldown
      ensures Body() == Steer(m, PlayerHandling, old(Body()), directionalInput, dt)
      ensures BankState() == Banked(old(BankState()), directionalInput, dt, forwardSpeed)
      ensures recoveryCooldown ==
              (if old(recoveryCooldown) > 0.0 then old(recoveryCooldown) - dt else old(recoveryCooldown))
    {
      var steered := Steer(m, PlayerHandling, Body(), directionalInput, dt);
      facingAngle := steered.facing;
      position := steered.position;
      if recoveryCooldown > 0.0 {
        recoveryCooldown := recoveryCooldown - dt;
      }
      forwardSpeed := steered.speed;
      if directionalInput != 0 {
        SetBankPercent(bankPercent + BankDelta(directionalInput, dt, forwardSpeed));
      }
    }

    /** The obstacle loop of `Update`, at half speed per obstacle entered. */
    method PushOutOfObstacles(m: MathLib, obstacles: seq<Obstacle>)
      modifies this`position, this`facingAngle, this`forwardSpeed
      ensures Body() == PushOutAll(m, old(Body()), obstacles, true)
    {
      var pushed := PushOut(m, Body(), obstacles, true);
      position, facingAngle, forwardSpeed := pushed.position, pushed.facing, pushed.speed;
    }

    /** `EditorHitTest`: the player can never be picked in the editor. */
    function EditorHitTest(mouse: Vec2): (hit: bool)
      ensures !hit
    {
      false
    }

    /** The tail pass, the furl decay, and the bank decay once its cooldown
        is over. */
    method UpdateDrawingRelatedStuff(m: MathLib, dt: real)
      modifies this`tail, this`tailFurlPercent, this`bankCooldown, this`bankPercent
      ensures tail == Followed(m, position, old(tail), PlayerSegmentSize)
      ensures tailFurlPercent == Clamp(old(tailFurlPercent) - dt * 2.0, 0.0, 1.0)
      ensures BankState() == Decayed(old(BankState()), dt)
    {
      tail := FollowLeader(m, position, tail, PlayerSegmentSize);
      tailFurlPercent := Clamp(tailFurlPercent - dt * 2.0, 0.0, 1.0);
      if bankCooldown > 0.0 {
        bankCooldown := bankCooldown - dt;
      } else {
        bankPercent := bankPercent * 0.999;
      }
    }

    /** `Destroy()` inherited from `Entity`: only the flag changes. */
    method Destroy()
      modifies this`flaggedForDestroy
      ensures flaggedForDestroy
    {
      flaggedForDestroy := true;
    }

    /** `Jet()` has an empty body for the player. */
    method Jet()
    {
    }

    /** `DeleteFood()`: the player no longer holds anything. */
    method DeleteFood()
      modifies this`heldFood
      ensures heldFood == null
    {
      heldFood := null;
    }

    /** `IsHurtAt(p)`: `p` is strictly closer than 50 to the head or to some
        tail segment. */
    function IsHurtAt(p: Vec2): (hurt: bool)
      reads this
      ensures hurt <==> ShorterThan(Sub(p, position), HurtRadius) ||
                        exists i :: 0 <= i < |tail| && ShorterThan(Sub(p, tail[i]), HurtRadius)
    {
      ShorterThan(Sub(p, position), HurtRadius) || AnyCloserThan(tail, p, HurtRadius)
    }

    /** `TakeDamage()`: see `TookDamage`. The tail is never emptied. */
    method TakeDamage() returns (died: bool)
      modifies this`recoveryCooldown, this`tail
      ensures TookDamage(this, died)
      ensures |old(tail)| >= 1 ==> |tail| >= 1
    {
      died := false;
      if recoveryCooldown > 0.0 {
        return;
      }
      recoveryCooldown := 1.0;
      if |tail| > 1 {
        tail := tail[..|tail| - 1];
      } else {
        died := true;
      }
    }

    /** `Boost()`: full speed. */
    method Boost()
      modifies this`forwardSpeed
      ensures forwardSpeed == PlayerHandling.maximumSpeed
    {
      forwardSpeed := PlayerHandling.maximumSpeed;
    }
  }

  /** The effect of `TakeDamage` on `p`: ignored while recovering;
      otherwise a one-second recovery starts and the last segment is
      dropped or, with a single segment left, the player dies (the source
      calls `World.PlayerDied` there). Nothing else changes. */
  twostate predicate TookDamage(p: Player, died: bool)
    reads p
  {
    p.position == old(p.position) && p.heldFood == old(p.heldFood) &&
    p.forwardSpeed == old(p.forwardSpeed) && p.facingAngle == old(p.facingAngle) &&
    p.flaggedForDestroy == old(p.flaggedForDestroy) &&
    p.bankPercent == old(p.bankPercent) && p.bankCooldown == old(p.bankCooldown) &&
    p.tailFurlPercent == old(p.tailFurlPercent) && p.directionalInput == old(p.directionalInput) &&
    if old(p.recoveryCooldown) > 0.0 then
      !died && p.recoveryCooldown == old(p.recoveryCooldown) && p.tail == old(p.tail)
    else
      p.recoveryCooldown == 1.0 &&
      if |old(p.tail)| > 1 then !died && p.tail == old(p.tail)[..|old(p.tail)| - 1]
      else died && p.tail == old(p.tail)
  }

  /** The speed clamp in `Update` is not a lower bound of the frame: a
      player at the minimum speed that ends the frame strictly inside an
      obstacle leaves it at half that speed. */
  lemma PushOutHalvesBelowMinimum(m: MathLib, body: Motion, o: Obstacle)
    requires body.speed == PlayerHandling.minimumSpeed
    requires Within(body.position, o.position, o.radius)
    ensures PushOutOf(m, body, o, true).speed == PlayerHandling.minimumSpeed / 2.0
    ensures PushOutOf(m, body, o, true).speed < PlayerHandling.minimumSpeed
  {
  }

  /** After a frame the speed lies in (0, 1200]: the clamp puts it in
      [200, 1200] and every push-out only halves it. */
  lemma UpdateSpeedBounds(m: MathLib, body: Motion, input: int, dt: real, obstacles: seq<Obstacle>)
    ensures var r := PushOutAll(m, Steer(m, PlayerHandling, body, input, dt), obstacles, true);
            0.0 < r.speed <= PlayerHandling.maximumSpeed
  {
    PushOutAllSpeed(m, Steer(m, PlayerHandling, body, input, dt), obstacles, true);
  }

  /** `IsHurtAt` compares true lengths: under a sound square root it is the
      strict test `|p - q| < 50` for the head or some segment `q`. */
  lemma IsHurtAtIsStrictLength(m: MathLib, player: Player, p: Vec2)
    requires SqrtSound(m)
    ensures player.IsHurtAt(p) <==>
            Length(m, Sub(p, player.position)) < HurtRadius ||
            exists i :: 0 <= i < |player.tail| && Length(m, Sub(p, player.tail[i])) < HurtRadius
  {
    ComparisonsAgreeWithLength(m, Sub(p, player.position), HurtRadius);
    forall i | 0 <= i < |player.tail|
      ensures ShorterThan(Sub(p, player.tail[i]), HurtRadius) <==>
              Length(m, Sub(p, player.tail[i])) < HurtRadius
    {
      ComparisonsAgreeWithLength(m, Sub(p, player.tail[i]), HurtRadius);
    }
  }
}
