/** The steps `Player` and `Worm` share, and the tail pass `WormRenderer`
    shares with them: pulling a tail of segments after a leader, pushing a
    body out of circular obstacles, and picking up the first edible food. */
module Creatures {
  import opened Geometry
  import opened Entities
  import opened Wrappers

  // ---------------------------------------------------------------------
  // Follow-the-leader tails
  // ---------------------------------------------------------------------

  /** One segment pulled after its predecessor: when it is strictly farther
      than `maxSize`, it moves along the line to exactly `maxSize` away. */
  function Constrain(m: MathLib, previous: Vec2, current: Vec2, maxSize: real): Vec2 {
    var displacement := Sub(current, previous);
    if LongerThan(displacement, maxSize) then
      Add(previous, Scale(Normalized(m, displacement), maxSize))
    else
      current
  }

  /** A constrained segment lies within `maxSize` of its predecessor, and a
      segment already within reach does not move. The over-stretch guard
      also rules out normalising the zero vector. */
  lemma ConstrainWithin(m: MathLib, previous: Vec2, current: Vec2, maxSize: real)
    requires SqrtSound(m) && 0.0 <= maxSize
    ensures NoLongerThan(Sub(Constrain(m, previous, current, maxSize), previous), maxSize)
    ensures !LongerThan(Sub(current, previous), maxSize) ==>
              Constrain(m, previous, current, maxSize) == current
    ensures LongerThan(Sub(current, previous), maxSize) ==>
              LengthSq(Sub(Constrain(m, previous, current, maxSize), previous)) == Sq(maxSize)
  {
    var displacement := Sub(current, previous);
    var r := Constrain(m, previous, current, maxSize);
    if LongerThan(displacement, maxSize) {
      var s := Scale(Normalized(m, displacement), maxSize);
      assert r == Add(previous, s);
      LongStepIsNotZero(displacement, maxSize);
      ScaledNormalizedLength(m, displacement, maxSize);
      TranslatedExactLength(previous, s, maxSize);
    } else {
      assert r == current;
      NoLongerIsNotLonger(displacement, maxSize);
    }
  }

  /** A vector longer than a non-negative bound is not the zero vector. */
  lemma LongStepIsNotZero(v: Vec2, d: real)
    requires 0.0 <= d && LongerThan(v, d)
    ensures v != Zero
  {
    SquareNonNegative(d);
    LengthSqNonNegative(v);
  }

  /** A step of squared length `k * k` from `c` ends no farther than `k`. */
  lemma TranslatedExactLength(c: Vec2, s: Vec2, k: real)
    requires 0.0 <= k && LengthSq(s) == Sq(k)
    ensures NoLongerThan(Sub(Add(c, s), c), k) && LengthSq(Sub(Add(c, s), c)) == Sq(k)
  {
    SubOfAdd(c, s);
    ExactLengthIsNoLonger(s, k);
  }

  /** The tail after one pass, head to tail: each segment is constrained
      against its predecessor's already-updated position (`leader` for the
      first segment). */
  function Followed(m: MathLib, leader: Vec2, segments: seq<Vec2>, maxSize: real): (r: seq<Vec2>)
    ensures |r| == |segments|
    decreases |segments|
  {
    if |segments| == 0 then []
    else
      var first := Constrain(m, leader, segments[0], maxSize);
      [first] + Followed(m, first, segments[1..], maxSize)
  }

  /** The predecessor of segment `i` in the tail `tail` led by `leader`. */
  function Predecessor(leader: Vec2, tail: seq<Vec2>, i: nat): Vec2
    requires i <= |tail|
  {
    if i == 0 then leader else tail[i - 1]
  }

  /** Segment `i` of a followed tail is segment `i` constrained against its
      updated predecessor. */
  lemma {:induction false} FollowedIsPointwise(m: MathLib, leader: Vec2, segments: seq<Vec2>, maxSize: real)
    ensures forall i :: 0 <= i < |segments| ==>
      Followed(m, leader, segments, maxSize)[i] ==
      Constrain(m, Predecessor(leader, Followed(m, leader, segments, maxSize), i), segments[i], maxSize)
    decreases |segments|
  {
    if |segments| > 0 {
      var r := Followed(m, leader, segments, maxSize);
      var first := Constrain(m, leader, segments[0], maxSize);
      var rest := Followed(m, first, segments[1..], maxSize);
      assert r == [first] + rest;
      FollowedIsPointwise(m, first, segments[1..], maxSize);
      forall i | 0 <= i < |segments|
        ensures r[i] == Constrain(m, Predecessor(leader, r, i), segments[i], maxSize)
      {
        if i > 0 {
          assert r[i] == rest[i - 1];
          assert segments[i] == segments[1..][i - 1];
          assert Predecessor(leader, r, i) == Predecessor(first, rest, i - 1);
        }
      }
    }
  }

  /** After a tail pass every segment lies within `maxSize` of its
      predecessor, and a segment already within reach of its (updated)
      predecessor keeps its position. */
  lemma FollowedWithinReach(m: MathLib, leader: Vec2, segments: seq<Vec2>, maxSize: real)
    requires SqrtSound(m) && 0.0 <= maxSize
    ensures var r := Followed(m, leader, segments, maxSize);
      forall i :: 0 <= i < |r| ==> NoLongerThan(Sub(r[i], Predecessor(leader, r, i)), maxSize)
    ensures var r := Followed(m, leader, segments, maxSize);
      forall i :: 0 <= i < |r| && !LongerThan(Sub(segments[i], Predecessor(leader, r, i)), maxSize) ==>
        r[i] == segments[i]
  {
    var r := Followed(m, leader, segments, maxSize);
    FollowedIsPointwise(m, leader, segments, maxSize);
    forall i | 0 <= i < |r|
      ensures NoLongerThan(Sub(r[i], Predecessor(leader, r, i)), maxSize)
      ensures !LongerThan(Sub(segments[i], Predecessor(leader, r, i)), maxSize) ==> r[i] == segments[i]
    {
      ConstrainWithin(m, Predecessor(leader, r, i), segments[i], maxSize);
    }
  }

  /** Moving the tail so that it follows `leader`, in place, head to tail. */
  method FollowLeader(m: MathLib, leader: Vec2, segments: seq<Vec2>, maxSize: real)
    returns (tail: seq<Vec2>)
    ensures tail == Followed(m, leader, segments, maxSize)
  {
    tail := segments;
    var i := 0;
    while i < |tail|
      invariant 0 <= i <= |segments| && |tail| == |segments|
      invariant tail[i..] == segments[i..]
      invariant tail[..i] + Followed(m, Predecessor(leader, tail, i), segments[i..], maxSize)
                == Followed(m, leader, segments, maxSize)
    {
      var previous := Predecessor(leader, tail, i);
      var current := tail[i];
      ghost var before := tail;
      if LongerThan(Sub(current, previous), maxSize) {
        var displacement := Sub(current, previous);
        tail := tail[i := Add(previous, Scale(Normalized(m, displacement), maxSize))];
      }
      assert tail[i] == Constrain(m, previous, segments[i], maxSize);
      assert tail[..i] == before[..i];
      assert segments[i..] == [segments[i]] + segments[i + 1..];
      assert tail[..i + 1] == before[..i] + [tail[i]];
      assert Predecessor(leader, tail, i + 1) == tail[i];
      i := i + 1;
    }
    assert tail[..i] == tail;
  }

  /** Every segment at the same place: `MoveAllTailSegmentsToHead`. */
  function AllAt(p: Vec2, n: nat): (r: seq<Vec2>)
    ensures |r| == n && forall i :: 0 <= i < n ==> r[i] == p
  {
    seq(n, _ => p)
  }

  // ---------------------------------------------------------------------
  // Steering
  // ---------------------------------------------------------------------

  /** What a push-out changes: where the body is, where it faces, how fast
      it goes. */
  datatype Motion = Motion(position: Vec2, facing: real, speed: real)

  /** The speed settings of a steered creature: the clamp range, the
      steering power and the speed gained per second without input. */
  datatype Handling = Handling(minimumSpeed: real, maximumSpeed: real,
                               steeringPower: real, acceleration: real)

  /** With steering input the speed falls by this much per second. */
  const Deceleration: real := 100.0

  predicate ValidHandling(h: Handling) {
    0.0 < h.minimumSpeed <= h.maximumSpeed
  }

  /** The first lines of `Update`: turn by the input (stronger at speed),
      advance along the new facing at the old speed, then accelerate
      without input or brake with it, and clamp the speed. */
  function Steer(m: MathLib, h: Handling, body: Motion, input: int, dt: real): (r: Motion)
    requires ValidHandling(h)
    ensures h.minimumSpeed <= r.speed <= h.maximumSpeed
  {
    var speedPercent := body.speed / h.maximumSpeed;
    var facing := body.facing + (input as real) * h.steeringPower * (1.0 + speedPercent) * dt;
    var position := Add(body.position, Scale(Scale(Polar(m, 1.0, facing), body.speed), dt));
    var speed := if input == 0 then body.speed + dt * h.acceleration else body.speed - dt * Deceleration;
    Motion(position, facing, Clamp(speed, h.minimumSpeed, h.maximumSpeed))
  }

  /** Without input the facing is kept and (for a non-negative frame time)
      the speed does not fall; with input it does not rise. */
  lemma SteerSpeed(m: MathLib, h: Handling, body: Motion, input: int, dt: real)
    requires ValidHandling(h) && 0.0 <= dt && 0.0 <= h.acceleration
    requires h.minimumSpeed <= body.speed <= h.maximumSpeed
    ensures input == 0 ==> Steer(m, h, body, input, dt).facing == body.facing
    ensures input == 0 ==> body.speed <= Steer(m, h, body, input, dt).speed
    ensures input != 0 ==> Steer(m, h, body, input, dt).speed <= body.speed
  {
  }

  /** The body advances by exactly `speed * dt` along its new facing. */
  lemma SteerDistance(m: MathLib, h: Handling, body: Motion, input: int, dt: real)
    requires ValidHandling(h) && TrigSound(m)
    ensures LengthSq(Sub(Steer(m, h, body, input, dt).position, body.position)) ==
            Mul(Sq(dt), Mul(Sq(body.speed), 1.0))
  {
    var r := Steer(m, h, body, input, dt);
    var u := Polar(m, 1.0, r.facing);
    var step := Scale(Scale(u, body.speed), dt);
    assert r.position == Add(body.position, step);
    SubOfAdd(body.position, step);
    PolarLength(m, 1.0, r.facing);
    LengthSqScale(u, body.speed);
    LengthSqScale(Scale(u, body.speed), dt);
  }

  /** The bank value and the cooldown before it starts to decay. */
  datatype Bank = Bank(percent: real, cooldown: real)

  /** The `BankPercent` setter: the value clamped to [-1, 1] and a fresh
      0.1 s cooldown. */
  function SetBank(value: real): (b: Bank)
    ensures -1.0 <= b.percent <= 1.0 && b.cooldown == 0.1
    ensures -1.0 <= value <= 1.0 ==> b.percent == value
  {
    Bank(Clamp(value, -1.0, 1.0), 0.1)
  }

  /** The bank gained in one frame of steering input. */
  function BankDelta(input: int, dt: real, speed: real): real {
    (input as real) * dt * speed / 100.0
  }

  /** `BankPercent += input * dt * speed / 100` when there is input. */
  function Banked(b: Bank, input: int, dt: real, speed: real): Bank {
    if input != 0 then SetBank(b.percent + BankDelta(input, dt, speed)) else b
  }

  /** The end of the drawing pass: the cooldown runs down while positive;
      once it is over the bank decays by 0.1% per frame. */
  function Decayed(b: Bank, dt: real): Bank {
    if b.cooldown > 0.0 then Bank(b.percent, b.cooldown - dt) else Bank(b.percent * 0.999, b.cooldown)
  }

  /** Banking and decay keep the bank in [-1, 1]; decay never changes its
      sign or increases its magnitude. */
  lemma BankStaysInRange(b: Bank, input: int, dt: real, speed: real)
    requires -1.0 <= b.percent <= 1.0
    ensures -1.0 <= Banked(b, input, dt, speed).percent <= 1.0
    ensures -1.0 <= Decayed(b, dt).percent <= 1.0
    ensures 0.0 <= b.percent ==> 0.0 <= Decayed(b, dt).percent <= b.percent
    ensures b.percent <= 0.0 ==> b.percent <= Decayed(b, dt).percent <= 0.0
  {
  }

  /** Where a carried food is held: 50 ahead of the head, along the line
      from the first segment, turned by half the bank. */
  function CarriedFoodPosition(m: MathLib, head: Vec2, firstSegment: Vec2, bank: real): Vec2 {
    var angle := AngleFromUnitX(m, Sub(head, firstSegment));
    Add(head, Polar(m, 50.0, angle + bank / 2.0))
  }

  /** A carried food is exactly 50 from the head. */
  lemma CarriedFoodDistance(m: MathLib, head: Vec2, firstSegment: Vec2, bank: real)
    requires TrigSound(m)
    ensures LengthSq(Sub(CarriedFoodPosition(m, head, firstSegment, bank), head)) == Sq(50.0)
  {
    var angle := AngleFromUnitX(m, Sub(head, firstSegment));
    SubOfAdd(head, Polar(m, 50.0, angle + bank / 2.0));
    PolarLength(m, 50.0, angle + bank / 2.0);
  }

  // ---------------------------------------------------------------------
  // Obstacle push-out
  // ---------------------------------------------------------------------

  /** Where a push-out puts a point inside obstacle `o`: on the rim, on the
      ray from the centre through the point. */
  function RimPosition(m: MathLib, p: Vec2, o: Obstacle): Vec2 {
    Add(o.position, Scale(Normalized(m, Sub(p, o.position)), o.radius))
  }

  /** A point other than the centre is put exactly `radius` from it. */
  lemma RimPositionOnRim(m: MathLib, p: Vec2, o: Obstacle)
    requires SqrtSound(m) && p != o.position
    ensures LengthSq(Sub(RimPosition(m, p, o), o.position)) == Sq(o.radius)
  {
    var displacement := Sub(p, o.position);
    assert displacement != Zero;
    ScaledNormalizedLength(m, displacement, o.radius);
    SubOfAdd(o.position, Scale(Normalized(m, displacement), o.radius));
  }

  /** One obstacle of the push-out loop. A body strictly inside the obstacle
      is put on its rim, faces away from its centre and, when `halve` is set
      (the player), loses half its speed. */
  function PushOutOf(m: MathLib, body: Motion, o: Obstacle, halve: bool): Motion {
    if Within(body.position, o.position, o.radius) then
      Motion(RimPosition(m, body.position, o),
             AngleFromUnitX(m, Sub(body.position, o.position)),
             if halve then body.speed / 2.0 else body.speed)
    else
      body
  }

  /** The push-out loop over the obstacles in entity order. */
  function PushOutAll(m: MathLib, body: Motion, obstacles: seq<Obstacle>, halve: bool): Motion
    decreases |obstacles|
  {
    if |obstacles| == 0 then body
    else PushOutOf(m, PushOutAll(m, body, obstacles[..|obstacles| - 1], halve), obstacles[|obstacles| - 1], halve)
  }

  /** A body strictly inside an obstacle, and not at its centre, ends exactly
      on the rim; a body outside is untouched; speed is halved or kept. */
  lemma PushOutOfRim(m: MathLib, body: Motion, o: Obstacle, halve: bool)
    requires SqrtSound(m)
    ensures var r := PushOutOf(m, body, o, halve);
      Within(body.position, o.position, o.radius) && body.position != o.position ==>
        LengthSq(Sub(r.position, o.position)) == Sq(o.radius)
    ensures !Within(body.position, o.position, o.radius) ==> PushOutOf(m, body, o, halve) == body
    ensures var r := PushOutOf(m, body, o, halve);
      r.speed == (if halve && Within(body.position, o.position, o.radius) then body.speed / 2.0 else body.speed)
  {
    if Within(body.position, o.position, o.radius) && body.position != o.position {
      RimPositionOnRim(m, body.position, o);
    }
  }

  /** Without halving the speed never changes; with halving it stays
      positive and never grows. */
  lemma {:induction false} PushOutAllSpeed(m: MathLib, body: Motion, obstacles: seq<Obstacle>, halve: bool)
    ensures !halve ==> PushOutAll(m, body, obstacles, halve).speed == body.speed
    ensures halve && 0.0 < body.speed ==>
      0.0 < PushOutAll(m, body, obstacles, halve).speed <= body.speed
    decreases |obstacles|
  {
    if |obstacles| > 0 {
      PushOutAllSpeed(m, body, obstacles[..|obstacles| - 1], halve);
    }
  }

  /** The push-out loop, obstacle by obstacle. */
  method PushOut(m: MathLib, body: Motion, obstacles: seq<Obstacle>, halve: bool) returns (r: Motion)
    ensures r == PushOutAll(m, body, obstacles, halve)
  {
    r := body;
    var i := 0;
    while i < |obstacles|
      invariant 0 <= i <= |obstacles|
      invariant r == PushOutAll(m, body, obstacles[..i], halve)
    {
      var o := obstacles[i];
      if Within(r.position, o.position, o.radius) {
        var displacement := Sub(r.position, o.position);
        r := Motion(Add(o.position, Scale(Normalized(m, displacement), o.radius)),
                    AngleFromUnitX(m, displacement),
                    if halve then r.speed / 2.0 else r.speed);
      }
      assert obstacles[..i + 1][..i] == obstacles[..i];
      i := i + 1;
    }
    assert obstacles[..i] == obstacles;
  }

  // ---------------------------------------------------------------------
  // Food pickup
  // ---------------------------------------------------------------------

  /** The pickup radius of `Player` and `Worm`. */
  const PickupRadius: real := 100.0

  /** A food the body at `p` would pick up: within reach and not yet eaten. */
  predicate Edible(f: Food, p: Vec2)
    reads f
  {
    Within(f.position, p, PickupRadius) && !f.isEaten
  }

  /** The index of the first edible food at or after `from`, in entity order. */
  function FirstEdibleFrom(foods: seq<Food>, p: Vec2, from: nat): (r: Option<nat>)
    requires from <= |foods|
    reads foods
    ensures r.Some? ==> from <= r.value < |foods| && Edible(foods[r.value], p) &&
                        forall j :: from <= j < r.value ==> !Edible(foods[j], p)
    ensures r.None? ==> forall j :: from <= j < |foods| ==> !Edible(foods[j], p)
    decreases |foods| - from
  {
    if from == |foods| then None
    else if Edible(foods[from], p) then Some(from)
    else FirstEdibleFrom(foods, p, from + 1)
  }

  /** The index of the first edible food in entity order. */
  function FirstEdible(foods: seq<Food>, p: Vec2): (r: Option<nat>)
    reads foods
    ensures r.Some? ==> r.value < |foods| && Edible(foods[r.value], p) &&
                        forall j :: 0 <= j < r.value ==> !Edible(foods[j], p)
    ensures r.None? ==> forall j :: 0 <= j < |foods| ==> !Edible(foods[j], p)
  {
    FirstEdibleFrom(foods, p, 0)
  }

  /** The effect of the pickup loop between two states: with something
      held nothing changes; otherwise the first edible food in entity order
      is taken and eaten, and no other food changes. */
  twostate predicate PickedUp(foods: seq<Food>, p: Vec2, held: Food?, new newHeld: Food?)
    reads foods
  {
    if held != null then
      newHeld == held && forall f :: f in foods ==> unchanged(f)
    else if old(FirstEdible(foods, p)).None? then
      newHeld == null && forall f :: f in foods ==> unchanged(f)
    else
      var k := old(FirstEdible(foods, p)).value;
      k < |foods| && newHeld == foods[k] && foods[k].isEaten && foods[k].flash == 1.0 &&
      foods[k].position == old(foods[k].position) &&
      foods[k].flame == old(foods[k].flame) &&
      foods[k].shineTime == old(foods[k].shineTime) &&
      foods[k].flaggedForDestroy == old(foods[k].flaggedForDestroy) &&
      (old(foods[k].Valid()) ==> foods[k].Valid()) &&
      forall f :: f in foods && f != foods[k] ==> unchanged(f)
  }

  /** The pickup loop: at most one food is taken per call. */
  method PickUpFood(foods: seq<Food>, p: Vec2, held: Food?) returns (newHeld: Food?)
    modifies foods
    ensures PickedUp(foods, p, held, newHeld)
  {
    ghost var first := FirstEdible(foods, p);
    newHeld := held;
    var i := 0;
    while i < |foods|
      invariant 0 <= i <= |foods|
      invariant first.Some? ==> first.value < |foods| && old(Edible(foods[first.value], p))
      invariant held != null ==> newHeld == held && forall f :: f in foods ==> unchanged(f)
      invariant held == null && (first.None? || i <= first.value) ==>
                  newHeld == null && forall f :: f in foods ==> unchanged(f)
      invariant held == null && first.Some? && first.value < i ==>
                  var k := first.value;
                  newHeld == foods[k] && foods[k].isEaten && foods[k].flash == 1.0 &&
                  foods[k].position == old(foods[k].position) &&
                  foods[k].flame == old(foods[k].flame) &&
                  foods[k].shineTime == old(foods[k].shineTime) &&
                  foods[k].flaggedForDestroy == old(foods[k].flaggedForDestroy) &&
                  (old(foods[k].Valid()) ==> foods[k].Valid()) &&
                  forall f :: f in foods && f != foods[k] ==> unchanged(f)
    {
      var food := foods[i];
      assert food in foods;
      if Within(food.position, p, PickupRadius) && !food.isEaten && newHeld == null {
        assert unchanged(food) && old(Edible(food, p));
        assert first == Some(i);
        newHeld := food;
        food.Eat();
      }
      i := i + 1;
    }
  }

  /** The food part of `Update`: a held food is moved to the carrying
      position; with nothing held the first edible food is picked up. */
  method CarryOrPickUp(m: MathLib, foods: seq<Food>, head: Vec2, firstSegment: Vec2, bank: real,
                       held: Food?) returns (newHeld: Food?)
    modifies foods, held
    ensures held == null ==> PickedUp(foods, head, null, newHeld)
    ensures held != null ==>
              newHeld == held && held.position == CarriedFoodPosition(m, head, firstSegment, bank) &&
              held.isEaten == old(held.isEaten) && held.flame == old(held.flame) &&
              held.flash == old(held.flash) && held.shineTime == old(held.shineTime) &&
              held.flaggedForDestroy == old(held.flaggedForDestroy) &&
              forall f :: f in foods && f != held ==> unchanged(f)
  {
    if held != null {
      held.position := CarriedFoodPosition(m, head, firstSegment, bank);
      newHeld := held;
    } else {
      newHeld := PickUpFood(foods, head, held);
    }
  }

  /** Whether `p` is strictly closer than `r` to some point: the scan of
      `IsHurtAt`. */
  function AnyCloserThan(points: seq<Vec2>, p: Vec2, r: real): (b: bool)
    ensures b <==> exists i :: 0 <= i < |points| && ShorterThan(Sub(p, points[i]), r)
  {
    if |points| == 0 then false
    else if ShorterThan(Sub(p, points[0]), r) then true
    else
      var rest := AnyCloserThan(points[1..], p, r);
      assert forall i :: 1 <= i < |points| ==> points[i] == points[1..][i - 1];
      rest
  }
}
