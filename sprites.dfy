/** `SpriteRenderer.cs`: the animation a sprite plays, its animation
    clock, its horizontal flip and the draw depth taken from its entity. */
module Sprites {
  import opened Geometry
  import opened Entities

  /** An animation of a sprite sheet. The renderer compares animations by
      identity, so an animation is its identity here. */
  datatype Animation = Animation(id: nat)

  /** The workers' animations (defined in `Constants`, which is not part of
      this model): two different animations. */
  const WorkerWalkAnimation: Animation := Animation(1)
  const WorkerIdleAnimation: Animation := Animation(2)

  /** The initial `FramesPerSecond`. */
  const DefaultFramesPerSecond: real := 10.0

  /** The clock after `SetAnimation(a)` while `current` plays at `time`. */
  function TimeAfterSet(current: Animation, time: real, a: Animation): (t: real)
    ensures current == a ==> t == time
    ensures current != a ==> t == 0.0
  {
    if current == a then time else 0.0
  }

  /** Asking twice for the same animation restarts it at most once. */
  lemma SetAnimationTwiceIsOnce(current: Animation, time: real, a: Animation)
    ensures TimeAfterSet(a, TimeAfterSet(current, time, a), a) == TimeAfterSet(current, time, a)
  {
  }

  /** A float cast to `int`: the fraction is dropped, towards zero. */
  function Truncate(y: real): (r: int)
    ensures 0.0 <= y ==> 0 <= r && r as real <= y < r as real + 1.0
    ensures y < 0.0 ==> r <= 0 && r as real - 1.0 < y <= r as real
  {
    if 0.0 <= y then y.Floor else -((-y).Floor)
  }

  /** Truncation keeps the order of its arguments. */
  lemma TruncateIsMonotone(a: real, b: real)
    requires a <= b
    ensures Truncate(a) <= Truncate(b)
  {
    if a < 0.0 && 0.0 <= b {
    } else if 0.0 <= a {
      assert Truncate(a) as real <= a <= b < Truncate(b) as real + 1.0;
    } else {
      assert Truncate(a) as real - 1.0 < a <= b <= Truncate(b) as real;
    }
  }

  /** `Math.Clamp` on integers. */
  function ClampInt(v: int, lo: int, hi: int): (r: int)
    requires lo <= hi
    ensures lo <= r <= hi
    ensures lo <= v <= hi ==> r == v
    ensures v < lo ==> r == lo
    ensures hi < v ==> r == hi
  {
    if v < lo then lo else if hi < v then hi else v
  }

  /** The depth a sprite is drawn at: its entity's depth less its height
      on screen (cast to `int`), kept within the valid depths. */
  function DrawDepth(depth: int, y: real): (r: int)
    ensures 0 <= r <= DepthMaxAsInt
    ensures 0 <= depth - Truncate(y) <= DepthMaxAsInt ==> r == depth - Truncate(y)
  {
    ClampInt(depth - Truncate(y), 0, DepthMaxAsInt)
  }

  /** A sprite lower on the screen (larger `y`) is drawn at a smaller depth
      or the same one, that is, not behind a sprite above it. */
  lemma LowerSpritesAreNotBehind(depth: int, y1: real, y2: real)
    requires y1 <= y2
    ensures DrawDepth(depth, y2) <= DrawDepth(depth, y1)
  {
    TruncateIsMonotone(y1, y2);
  }

  /** `SpriteRenderer`: draws one entity with frames of a sheet. */
  class SpriteRenderer {
    const entity: Entity
    var currentAnimation: Animation
    var time: real
    var framesPerSecond: real
    var flipX: bool

    /** A renderer on the sheet's default animation, its clock at zero. */
    constructor (e: Entity, sheetDefault: Animation)
      ensures entity == e && currentAnimation == sheetDefault
      ensures time == 0.0 && framesPerSecond == DefaultFramesPerSecond && !flipX
    {
      entity := e;
      currentAnimation := sheetDefault;
      time := 0.0;
      framesPerSecond := DefaultFramesPerSecond;
      flipX := false;
    }

    /** `SetAnimation(animation)`: switching restarts the clock; asking for
        the animation already playing changes nothing. */
    method SetAnimation(a: Animation)
      modifies this`currentAnimation, this`time
      ensures currentAnimation == a
      ensures time == TimeAfterSet(old(currentAnimation), old(time), a)
    {
      if currentAnimation == a {
        return;
      }
      currentAnimation := a;
      time := 0.0;
    }

    /** `Update(dt)`: the clock runs. */
    method Update(dt: real)
      modifies this`time
      ensures time == old(time) + dt
    {
      time := time + dt;
    }

    /** The depth `Draw` uses. */
    function Depth(): (r: int)
      reads this, entity
      ensures 0 <= r <= DepthMaxAsInt
    {
      DrawDepth(entity.depth, entity.position.y)
    }
  }
}
