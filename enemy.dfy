/** `Enemy.cs`: a creature that waits until a player is in range and in
    sight, then chases it, bites it, and gives up when it loses it. */
module Enemies {
  import opened Geometry
  import opened Entities
  import opened Wrappers
  import opened Creatures
  import opened Players

  /** `_maxSpeed`. */
  const MaxSpeed: real := 1700.0

  /** `_speed`, the pursuit acceleration scale. */
  const PursuitSpeed: real := 50.0

  /** The range of `TestDistance`. */
  const SightRange: real := 1920.0

  /** The radius of `EditorHitTest`. */
  const EnemyHitRadius: real := 100.0

  /** The first sample index of the line-of-sight test, and one past its
      last: samples `i / 100` for `i` in 5..99. */
  const FirstProbe: int := 5
  const ProbeEnd: int := 100

  /** Sample `i` of the segment from `p` to `q`. */
  function Probe(p: Vec2, q: Vec2, i: int): Vec2 {
    Lerp(p, q, (i as real) / 100.0)
  }

  /** `TestLineOfSightTo`, from `p` to `q`: no sample `i / 100`, for `i` in
      5..99, lies strictly inside an obstacle. */
  predicate LineOfSight(p: Vec2, q: Vec2, obstacles: seq<Obstacle>) {
    forall k, j :: FirstProbe <= k < ProbeEnd && 0 <= j < |obstacles| ==>
      !Within(Probe(p, q, k), obstacles[j].position, obstacles[j].radius)
  }

  /** An obstacle of radius 100 half-way between (0, 0) and (1000, 0)
      blocks the view: sample 50 is its centre. */
  lemma ObstacleOnTheLineBlocks()
    ensures !LineOfSight(Zero, Vec2(1000.0, 0.0), [Obstacle(Vec2(500.0, 0.0), 100.0)])
  {
    var obstacles := [Obstacle(Vec2(500.0, 0.0), 100.0)];
    assert Probe(Zero, Vec2(1000.0, 0.0), 50) == Vec2(500.0, 0.0);
    assert Within(Probe(Zero, Vec2(1000.0, 0.0), 50), obstacles[0].position, obstacles[0].radius);
  }

  /** Obstacles that keep clear of the x axis never block a view along it:
      every sample lies on the axis, at least `|centre.y|` from a centre. */
  lemma OffAxisObstaclesAreClear(length: real, obstacles: seq<Obstacle>)
    requires forall j :: 0 <= j < |obstacles| ==>
               Sq(obstacles[j].radius) <= Sq(obstacles[j].position.y)
    ensures LineOfSight(Zero, Vec2(length, 0.0), obstacles)
  {
    var q := Vec2(length, 0.0);
    forall k, j | FirstProbe <= k < ProbeEnd && 0 <= j < |obstacles|
      ensures !Within(Probe(Zero, q, k), obstacles[j].position, obstacles[j].radius)
    {
      var d := Sub(Probe(Zero, q, k), obstacles[j].position);
      assert d.y == -obstacles[j].position.y;
      assert Sq(d.y) == Sq(obstacles[j].position.y);
      SquareNonNegative(d.x);
    }
  }

  /** The obstacle of `ObstacleOnTheLineBlocks` moved to (500, 500) leaves
      the view clear. */
  lemma ObstacleOffTheLineIsClear()
    ensures LineOfSight(Zero, Vec2(1000.0, 0.0), [Obstacle(Vec2(500.0, 500.0), 100.0)])
  {
    OffAxisObstaclesAreClear(1000.0, [Obstacle(Vec2(500.0, 500.0), 100.0)]);
  }

  /** The point a fraction `t` of the way from `p` to `q` is `t (q - p)`
      from `p` and `(t - 1) (q - p)` from `q`. */
  lemma LerpOffsets(p: Vec2, q: Vec2, t: real)
    ensures Sub(Lerp(p, q, t), p) == Scale(Sub(q, p), t)
    ensures Sub(Lerp(p, q, t), q) == Scale(Sub(q, p), t - 1.0)
  {
    var l := Lerp(p, q, t);
    assert l.x - q.x == (q.x - p.x) * (t - 1.0);
    assert l.y - q.y == (q.y - p.y) * (t - 1.0);
  }

  /** Scaling by a factor at least `lo` in magnitude scales the squared
      length by at least `lo` squared. */
  lemma ScaledAtLeast(d: Vec2, t: real, lo: real)
    requires 0.0 <= lo <= t
    ensures Mul(Sq(lo), LengthSq(d)) <= LengthSq(Scale(d, t))
  {
    LengthSqNonNegative(d);
    LengthSqScale(d, t);
    SquareMonotone(lo, t);
    MulNonNegative(Sq(t) - Sq(lo), LengthSq(d));
  }

  /** Sample `k` of the line-of-sight test lies at least 5% of the way
      from `p` and at least 1% of the way from `q`. */
  lemma ProbeKeepsOffTheEnds(p: Vec2, q: Vec2, k: int)
    requires FirstProbe <= k < ProbeEnd
    ensures Mul(Sq(0.05), LengthSq(Sub(q, p))) <= LengthSq(Sub(Probe(p, q, k), p))
    ensures Mul(Sq(0.01), LengthSq(Sub(q, p))) <= LengthSq(Sub(Probe(p, q, k), q))
  {
    var d := Sub(q, p);
    var t := (k as real) / 100.0;
    LerpOffsets(p, q, t);
    ScaledAtLeast(d, t, 0.05);
    ScaledAtLeast(d, 1.0 - t, 0.01);
    LengthSqScale(d, t - 1.0);
    LengthSqScale(d, 1.0 - t);
    assert Sq(t - 1.0) == Sq(1.0 - t);
  }

  /** Only samples 5..99 are tested: an enemy at `p` inside one obstacle
      and a target at `q` inside another still see each other when the
      obstacles reach less than 5% and 1% of the way towards each other. */
  lemma EndpointsAreNotSampled(p: Vec2, q: Vec2, r1: real, r2: real)
    requires 0.0 < r1 && 0.0 < r2
    requires Sq(r1) <= Mul(Sq(0.05), LengthSq(Sub(q, p)))
    requires Sq(r2) <= Mul(Sq(0.01), LengthSq(Sub(q, p)))
    ensures LineOfSight(p, q, [Obstacle(p, r1), Obstacle(q, r2)])
    ensures Within(p, p, r1) && Within(q, q, r2)
  {
    var obstacles := [Obstacle(p, r1), Obstacle(q, r2)];
    forall k, j | FirstProbe <= k < ProbeEnd && 0 <= j < |obstacles|
      ensures !Within(Probe(p, q, k), obstacles[j].position, obstacles[j].radius)
    {
      ProbeKeepsOffTheEnds(p, q, k);
    }
    SquarePositive(r1);
    SquarePositive(r2);
  }

  /** `TestDistance`, from `p` to `q`: `|p - q| < 1920`. */
  predicate InRange(p: Vec2, q: Vec2) {
    ShorterThan(Sub(p, q), SightRange)
  }

  /** A player at `q` is visible from `p`: in range and in sight. */
  predicate Visible(p: Vec2, q: Vec2, obstacles: seq<Obstacle>) {
    InRange(p, q) && LineOfSight(p, q, obstacles)
  }

  /** The index of the last visible player in entity order, among the first
      `n`. */
  function LastVisible(players: seq<Player>, p: Vec2, obstacles: seq<Obstacle>, n: nat): (r: Option<nat>)
    requires n <= |players|
    reads players
    ensures r.Some? ==> r.value < n && Visible(p, players[r.value].position, obstacles) &&
                        forall j :: r.value < j < n ==> !Visible(p, players[j].position, obstacles)
    ensures r.None? ==> forall j :: 0 <= j < n ==> !Visible(p, players[j].position, obstacles)
  {
    if n == 0 then None
    else if Visible(p, players[n - 1].position, obstacles) then Some(n - 1)
    else LastVisible(players, p, obstacles, n - 1)
  }

  /** The last visible player among the first `n`, or null. */
  function AcquiredAmong(players: seq<Player>, p: Vec2, obstacles: seq<Obstacle>, n: nat): Player?
    requires n <= |players|
    reads players
  {
    match LastVisible(players, p, obstacles, n)
    case None => null
    case Some(k) => players[k]
  }

  /** The player an idle enemy at `p` acquires: the last visible one. */
  function Acquired(players: seq<Player>, p: Vec2, obstacles: seq<Obstacle>): Player?
    reads players
  {
    AcquiredAmong(players, p, obstacles, |players|)
  }

  /** The pursuit step: accelerate towards the target (twice as hard again
      after a bite), then cap the speed at 1700. */
  function Pursued(m: MathLib, velocity: Vec2, toTarget: Vec2, dt: real, bit: bool): Vec2 {
    var direction := Normalized(m, toTarget);
    var chased := Add(velocity, Scale(Scale(Scale(direction, PursuitSpeed), dt), 40.0));
    var boosted := if bit then Add(chased, Scale(Scale(Scale(direction, PursuitSpeed), dt), 80.0)) else chased;
    if LongerThan(boosted, MaxSpeed) then Scale(Normalized(m, boosted), MaxSpeed) else boosted
  }

  /** After pursuit the speed is at most 1700, and exactly 1700 when the
      cap applied. */
  lemma PursuedIsBounded(m: MathLib, velocity: Vec2, toTarget: Vec2, dt: real, bit: bool)
    requires SqrtSound(m)
    ensures NoLongerThan(Pursued(m, velocity, toTarget, dt, bit), MaxSpeed)
  {
    var direction := Normalized(m, toTarget);
    var chased := Add(velocity, Scale(Scale(Scale(direction, PursuitSpeed), dt), 40.0));
    var boosted := if bit then Add(chased, Scale(Scale(Scale(direction, PursuitSpeed), dt), 80.0)) else chased;
    if LongerThan(boosted, MaxSpeed) {
      LongStepIsNotZero(boosted, MaxSpeed);
      ScaledNormalizedLength(m, boosted, MaxSpeed);
      ExactLengthIsNoLonger(Scale(Normalized(m, boosted), MaxSpeed), MaxSpeed);
    } else {
      NoLongerIsNotLonger(boosted, MaxSpeed);
    }
  }

  /** Where the enemy is and how it moves. */
  datatype Kinematics = Kinematics(position: Vec2, velocity: Vec2)

  /** One obstacle of the enemy's push-out loop: on the rim, moving away
      from the centre at half its former speed. */
  function BouncedOff(m: MathLib, k: Kinematics, o: Obstacle): Kinematics {
    if Within(k.position, o.position, o.radius) then
      var displacement := Sub(k.position, o.position);
      Kinematics(RimPosition(m, k.position, o),
                 Polar(m, Length(m, k.velocity) / 2.0, AngleFromUnitX(m, displacement)))
    else
      k
  }

  /** The push-out loop over the first `n` obstacles in entity order. */
  function BouncedOffFirst(m: MathLib, k: Kinematics, obstacles: seq<Obstacle>, n: nat): Kinematics
    requires n <= |obstacles|
  {
    if n == 0 then k
    else BouncedOff(m, BouncedOffFirst(m, k, obstacles, n - 1), obstacles[n - 1])
  }

  /** The push-out loop over all the obstacles. */
  function BouncedOffAll(m: MathLib, k: Kinematics, obstacles: seq<Obstacle>): Kinematics {
    BouncedOffFirst(m, k, obstacles, |obstacles|)
  }

  lemma SquareOfHalf(l: real)
    ensures Sq(l / 2.0) == Sq(l) / 4.0
  {
  }

  /** A bounce quarters the squared speed; an enemy clear of the obstacle
      is left as it is. */
  lemma BouncedOffQuartersSquaredSpeed(m: MathLib, k: Kinematics, o: Obstacle)
    requires Sound(m)
    ensures Within(k.position, o.position, o.radius) ==>
              LengthSq(BouncedOff(m, k, o).velocity) == LengthSq(k.velocity) / 4.0
    ensures !Within(k.position, o.position, o.radius) ==> BouncedOff(m, k, o) == k
  {
    if Within(k.position, o.position, o.radius) {
      var l := Length(m, k.velocity);
      var angle := AngleFromUnitX(m, Sub(k.position, o.position));
      assert BouncedOff(m, k, o).velocity == Polar(m, l / 2.0, angle);
      PolarLength(m, l / 2.0, angle);
      SquareOfHalf(l);
      LengthLaw(m, k.velocity);
    }
  }

  /** A bounce puts an enemy that is not at the centre on the rim. */
  lemma BouncedOffOnRim(m: MathLib, k: Kinematics, o: Obstacle)
    requires SqrtSound(m) && Within(k.position, o.position, o.radius) && k.position != o.position
    ensures LengthSq(Sub(BouncedOff(m, k, o).position, o.position)) == Sq(o.radius)
  {
    RimPositionOnRim(m, k.position, o);
  }

  /** The push-out loop keeps the speed bound. */
  lemma {:induction false} BouncedOffFirstIsBounded(m: MathLib, k: Kinematics, obstacles: seq<Obstacle>, n: nat)
    requires Sound(m) && NoLongerThan(k.velocity, MaxSpeed) && n <= |obstacles|
    ensures NoLongerThan(BouncedOffFirst(m, k, obstacles, n).velocity, MaxSpeed)
  {
    if n > 0 {
      var before := BouncedOffFirst(m, k, obstacles, n - 1);
      BouncedOffFirstIsBounded(m, k, obstacles, n - 1);
      BouncedOffQuartersSquaredSpeed(m, before, obstacles[n - 1]);
      LengthSqNonNegative(before.velocity);
    }
  }

  /** The animation clock's advance: `|velocity| * dt / 100`. */
  function MotionAdvance(m: MathLib, velocity: Vec2, dt: real): real {
    Length(m, velocity) * dt / 100.0
  }

  class Enemy {
    var flaggedForDestroy: bool
    var position: Vec2
    var velocity: Vec2
    var target: Player?
    var motionTime: real

    /** The enemy invariant: its speed is at most 1700. */
    predicate Valid()
      reads this
    {
      NoLongerThan(velocity, MaxSpeed)
    }

    function Kin(): Kinematics
      reads this
    {
      Kinematics(position, velocity)
    }

    /** `new Enemy(world)` followed by setting its `Position` to `p`: at
        rest at `p`, with no target. */
    constructor (p: Vec2)
      ensures position == p && velocity == Zero && target == null
      ensures motionTime == 0.0 && !flaggedForDestroy
      ensures Valid()
    {
      flaggedForDestroy := false;
      position := p;
      velocity := Zero;
      target := null;
      motionTime := 0.0;
    }

    /** `IsAlert`: the enemy has a target. */
    function IsAlert(): (alert: bool)
      reads this
      ensures alert <==> target != null
    {
      target != null
    }

    /** `FocalWeight()`. */
    function FocalWeight(): (w: real)
      ensures w == 3.0
    {
      3.0
    }

    /** `EditorHitTest`: strictly within 100. */
    function EditorHitTest(mouse: Vec2): (hit: bool)
      reads this
      ensures hit <==> ShorterThan(Sub(mouse, position), EnemyHitRadius)
    {
      ShorterThan(Sub(mouse, position), EnemyHitRadius)
    }

    /** `TestDistance(p)`. */
    function TestDistance(p: Vec2): bool
      reads this
    {
      InRange(position, p)
    }

    /** `TestLineOfSightTo(p)`, given the world's obstacles in entity order:
        the sampling loop with its early return. */
    method TestLineOfSightTo(p: Vec2, obstacles: seq<Obstacle>) returns (clear: bool)
      ensures clear == LineOfSight(position, p, obstacles)
    {
      var i := FirstProbe;
      while i < ProbeEnd
        invariant FirstProbe <= i <= ProbeEnd
        invariant forall k, j :: FirstProbe <= k < i && 0 <= j < |obstacles| ==>
                    !Within(Probe(position, p, k), obstacles[j].position, obstacles[j].radius)
      {
        var probe := Lerp(position, p, (i as real) / 100.0);
        var j := 0;
        while j < |obstacles|
          invariant 0 <= j <= |obstacles|
          invariant forall j' :: 0 <= j' < j ==>
                      !Within(probe, obstacles[j'].position, obstacles[j'].radius)
        {
          if Within(probe, obstacles[j].position, obstacles[j].radius) {
            assert Probe(position, p, i) == probe;
            return false;
          }
          j := j + 1;
        }
        assert Probe(position, p, i) == probe;
        i := i + 1;
      }
      return true;
    }

    /** One frame, given the world's obstacles and players in entity order:
        bounce off obstacles; without a target acquire the last visible
        player, with one chase it (biting it when it is close enough to
        hurt); drop a target that left range or sight; then move. Returns
        whether a bite killed the player. */
    method Update(m: MathLib, dt: real, obstacles: seq<Obstacle>, players: seq<Player>)
      returns (playerDied: bool)
      modifies this, target
      ensures Sound(m) && old(Valid()) ==> Valid()
      ensures var pushed := BouncedOffAll(m, old(Kin()), obstacles);
              var found := if old(target) == null then old(Acquired(players, pushed.position, obstacles))
                           else old(target);
              var bit := old(target != null && target.IsHurtAt(pushed.position));
              var chased := if old(target) == null then pushed.velocity
                            else Pursued(m, pushed.velocity, Sub(old(target.position), pushed.position), dt, bit);
              var lost := found != null && !old(Visible(pushed.position, found.position, obstacles));
              target == (if lost then null else found) &&
              velocity == (if lost then Zero else chased) &&
              position == Add(pushed.position, Scale(velocity, dt)) &&
              (bit ==> TookDamage(old(target), playerDied)) &&
              (!bit ==> !playerDied && (old(target) != null ==> unchanged(old(target))))
      ensures motionTime == old(motionTime) + MotionAdvance(m, velocity, dt)
      ensures flaggedForDestroy == old(flaggedForDestroy)
    {
      BounceOffObstacles(m, obstacles);
      ghost var pushed := Kin();
      ghost var target0 := target;
      playerDied := Chase(m, dt, obstacles, players);
      ghost var found := target;
      ghost var chased := velocity;
      DropLostTarget(obstacles);
      position := Add(position, Scale(velocity, dt));
      motionTime := motionTime + MotionAdvance(m, velocity, dt);
      if Sound(m) && NoLongerThan(old(velocity), MaxSpeed) {
        BouncedOffFirstIsBounded(m, old(Kin()), obstacles, |obstacles|);
        if target0 != null {
          PursuedIsBounded(m, pushed.velocity, Sub(target0.position, pushed.position), dt,
                           old(target.IsHurtAt(pushed.position)));
        }
        assert NoLongerThan(chased, MaxSpeed);
      }
    }

    /** The target part of `Update`: acquire a target, or chase the one
        there is. */
    method Chase(m: MathLib, dt: real, obstacles: seq<Obstacle>, players: seq<Player>)
      returns (died: bool)
      modifies this`target, this`velocity, target
      ensures old(target) == null ==>
                target == old(Acquired(players, position, obstacles)) && velocity == old(velocity) && !died
      ensures old(target) != null ==>
                target == old(target) &&
                velocity == Pursued(m, old(velocity), Sub(old(target.position), position), dt,
                                    old(target.IsHurtAt(position))) &&
                (old(target.IsHurtAt(position)) ==> TookDamage(target, died)) &&
                (!old(target.IsHurtAt(position)) ==> !died && unchanged(target))
    {
      died := false;
      if target == null {
        Acquire(players, obstacles);
      } else {
        died := Pursue(m, dt);
      }
    }

    /** The obstacle loop. */
    method BounceOffObstacles(m: MathLib, obstacles: seq<Obstacle>)
      modifies this`position, this`velocity
      ensures Kin() == BouncedOffAll(m, old(Kin()), obstacles)
    {
      var i := 0;
      while i < |obstacles|
        invariant 0 <= i <= |obstacles|
        invariant Kin() == BouncedOffFirst(m, old(Kin()), obstacles, i)
      {
        var o := obstacles[i];
        if Within(position, o.position, o.radius) {
          var displacement := Sub(position, o.position);
          position := RimPosition(m, position, o);
          velocity := Polar(m, Length(m, velocity) / 2.0, AngleFromUnitX(m, displacement));
        }
        i := i + 1;
      }
    }

    /** The acquisition loop: every visible player in turn becomes the
        target, so the last one wins. */
    method Acquire(players: seq<Player>, obstacles: seq<Obstacle>)
      requires target == null
      modifies this`target
      ensures target == Acquired(players, position, obstacles)
    {
      var i := 0;
      while i < |players|
        invariant 0 <= i <= |players|
        invariant target == AcquiredAmong(players, position, obstacles, i)
      {
        var player := players[i];
        assert AcquiredAmong(players, position, obstacles, i + 1) ==
               if Visible(position, player.position, obstacles) then player
               else AcquiredAmong(players, position, obstacles, i);
        var inSight := TestLineOfSightTo(player.position, obstacles);
        if TestDistance(player.position) && inSight {
          target := player;
        }
        i := i + 1;
      }
    }

    /** The chase: accelerate towards the target, bite it when it is hurt at
        the enemy's position, cap the speed. */
    method Pursue(m: MathLib, dt: real) returns (died: bool)
      requires target != null
      modifies this`velocity, target
      ensures target == old(target)
      ensures velocity == Pursued(m, old(velocity), Sub(target.position, position), dt,
                                  old(target.IsHurtAt(position)))
      ensures old(target.IsHurtAt(position)) ==> TookDamage(target, died)
      ensures !old(target.IsHurtAt(position)) ==> !died && unchanged(target)
    {
      var displacement := Sub(target.position, position);
      velocity := Add(velocity, Scale(Scale(Scale(Normalized(m, displacement), PursuitSpeed), dt), 40.0));
      died := false;
      if target.IsHurtAt(position) {
        died := target.TakeDamage();
        velocity := Add(velocity, Scale(Scale(Scale(Normalized(m, displacement), PursuitSpeed), dt), 80.0));
      }
      if LongerThan(velocity, MaxSpeed) {
        velocity := Scale(Normalized(m, velocity), MaxSpeed);
      }
    }

    /** A target that failed the range or sight test is dropped and the
        enemy stops. */
    method DropLostTarget(obstacles: seq<Obstacle>)
      modifies this`target, this`velocity
      ensures var lost := old(target) != null &&
                          !Visible(position, old(target).position, obstacles);
              target == (if lost then null else old(target)) &&
              velocity == (if lost then Zero else old(velocity))
    {
      if target != null {
        var inSight := TestLineOfSightTo(target.position, obstacles);
        if !TestDistance(target.position) || !inSight {
          target := null;
          velocity := Zero;
        }
      }
    }
  }

  /** `TestDistance` and `EditorHitTest` are the strict length tests of the
      source under a sound square root. */
  lemma RangeTestsAreStrict(m: MathLib, p: Vec2, q: Vec2)
    requires SqrtSound(m)
    ensures InRange(p, q) <==> Length(m, Sub(p, q)) < SightRange
    ensures ShorterThan(Sub(q, p), EnemyHitRadius) <==> Length(m, Sub(q, p)) < EnemyHitRadius
  {
    ComparisonsAgreeWithLength(m, Sub(p, q), SightRange);
    ComparisonsAgreeWithLength(m, Sub(q, p), EnemyHitRadius);
  }
}
