/** The state every game object shares (`Entity.cs`), the immutable
    `Obstacle` and the collectable `Food`. */
module Entities {
  import opened Geometry

  /** `Scale2D` of the framework. */
  datatype Scale2D = Scale2D(x: real, y: real)

  const ScaleOne: Scale2D := Scale2D(1.0, 1.0)

  /** The framework's `Depth.MaxAsInt`, the deepest draw depth (a stand-in
      value: the framework is not part of this model). */
  const DepthMaxAsInt: int := 2147483647

  /** The framework's `Depth.Middle` (a stand-in value, like `DepthMaxAsInt`). */
  const DepthMiddle: int := DepthMaxAsInt / 2

  /** The common part of every game object: `Entity`. Components (workers,
      renderers, worm behaviour) hold one of these as their `_entity`. */
  class Entity {
    var flaggedForDestroy: bool
    var position: Vec2
    var scale: Scale2D
    var depth: int

    /** A new entity: not flagged, at the origin, scale `One`, depth `Middle`. */
    constructor ()
      ensures !flaggedForDestroy && position == Zero
      ensures scale == ScaleOne && depth == DepthMiddle
    {
      flaggedForDestroy := false;
      position := Zero;
      scale := ScaleOne;
      depth := DepthMiddle;
    }

    /** `Destroy()` raises the flag and touches nothing else; the flag has
        no other writer, so it is never lowered again. */
    method Destroy()
      modifies this
      ensures flaggedForDestroy
      ensures position == old(position) && scale == old(scale) && depth == old(depth)
    {
      flaggedForDestroy := true;
    }
  }

  /** `Obstacle`: a wall whose `Radius` is fixed by its constructor. Nothing
      writes an obstacle after `World.CreateWall`, so it is a value here. */
  datatype Obstacle = Obstacle(position: Vec2, radius: real)

  /** `Obstacle.EditorHitTest`: the strict test `|mouse - Position| < Radius`. */
  predicate ObstacleHitTest(o: Obstacle, mouse: Vec2) {
    ShorterThan(Sub(mouse, o.position), o.radius)
  }

  /** The hit test is the strict length comparison, so a point exactly on
      the boundary is not a hit. */
  lemma ObstacleHitTestIsStrict(m: MathLib, o: Obstacle, mouse: Vec2)
    requires SqrtSound(m)
    ensures ObstacleHitTest(o, mouse) <==> Length(m, Sub(mouse, o.position)) < o.radius
    ensures Length(m, Sub(mouse, o.position)) == o.radius ==> !ObstacleHitTest(o, mouse)
  {
    ComparisonsAgreeWithLength(m, Sub(mouse, o.position), o.radius);
  }

  /** `Obstacle.Update` has an empty body. */
  function ObstacleUpdate(o: Obstacle, dt: real): (r: Obstacle)
    ensures r == o
  {
    o
  }

  /** `Food`: a collectable that the player carries to the goal. */
  class Food {
    var position: Vec2
    var flaggedForDestroy: bool
    var shineTime: real
    var flame: real
    var flash: real
    var isEaten: bool

    /** The food invariant: the flame burns at 1 until eaten and never
        drops below 0.1; the flash lies in [0, 1]. */
    ghost predicate Valid()
      reads this
    {
      (!isEaten ==> flame == 1.0) && 0.1 <= flame <= 1.0 && 0.0 <= flash <= 1.0
    }

    constructor ()
      ensures Valid() && !isEaten && !flaggedForDestroy
      ensures flame == 1.0 && flash == 0.0 && shineTime == 0.0 && position == Zero
    {
      position := Zero;
      flaggedForDestroy := false;
      shineTime := 0.0;
      flame := 1.0;
      flash := 0.0;
      isEaten := false;
    }

    /** `Food.Update`: the shine clock runs; an eaten food's flame sinks by
        `dt` to at least 0.1; a positive flash sinks by `5 * dt` to at least 0. */
    method Update(dt: real)
      modifies this
      ensures shineTime == old(shineTime) + dt
      ensures flame == (if old(isEaten) then Floored(old(flame) - dt, 0.1) else old(flame))
      ensures flash == (if old(flash) > 0.0 then Floored(old(flash) - dt * 5.0, 0.0) else old(flash))
      ensures isEaten == old(isEaten) && position == old(position)
      ensures flaggedForDestroy == old(flaggedForDestroy)
      ensures old(Valid()) && 0.0 <= dt ==> Valid()
    {
      shineTime := shineTime + dt;
      if isEaten {
        flame := flame - dt;
        if flame < 0.1 {
          flame := 0.1;
        }
      }
      if flash > 0.0 {
        flash := flash - dt * 5.0;
        if flash < 0.0 {
          flash := 0.0;
        }
      }
    }

    /** `Eat()`: the food is eaten for good and flashes at full strength. */
    method Eat()
      modifies this
      ensures isEaten && flash == 1.0
      ensures flame == old(flame) && shineTime == old(shineTime) && position == old(position)
      ensures flaggedForDestroy == old(flaggedForDestroy)
      ensures old(Valid()) ==> Valid()
    {
      isEaten := true;
      flash := 1.0;
    }

    /** `Destroy()` inherited from `Entity`. */
    method Destroy()
      modifies this`flaggedForDestroy
      ensures flaggedForDestroy
    {
      flaggedForDestroy := true;
    }

    /** `FocalWeight()`: an eaten food no longer draws the camera. */
    function FocalWeight(): (w: real)
      reads this
      ensures isEaten ==> w == 0.0
      ensures !isEaten ==> w == 2.0
    {
      if isEaten then 0.0 else 2.0
    }
  }
}
