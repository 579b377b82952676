/** The goal (`Goal` in `Goal.cs`): the nest the player spawns from and
    feeds. It waves a ring of inverse-kinematic arms, eats the food the
    player brings within reach, and grows a new full-length arm, and one
    more link on every arm, for every food eaten. */
module Goals {
  import opened Geometry
  import opened Entities
  import opened Wrappers
  import opened Creatures
  import opened Players
  import opened Kinematics

  /** The constructor's ring of arms. */
  const ArmCount: nat := 10
  /** Links of a starting arm. */
  const ArmLinks: nat := 12
  /** Links of the arm grown for a food (`AddFullArm`). */
  const FullArmLinks: nat := 50
  /** The rest distance of every link the goal adds. */
  const LinkDistance: real := 10.0
  /** The player must be within this distance of the goal to be fed from. */
  const FeedingRange: real := 600.0
  /** An arm's head within this distance of the held food eats it. */
  const MouthRadius: real := 25.0
  /** The arm-update speed-up while chasing food. */
  const ChaseSpeed: real := 5.0

  /** The root of starting arm `i`, relative to the goal: on a circle of
      radius 15, a tenth of a turn apart (sine first, cosine second). */
  function ArmRoot(m: MathLib, i: nat): Vec2 {
    var f := (i as real) / 10.0;
    Scale(Vec2(m.sin(f * Pi * 2.0), m.cos(f * Pi * 2.0)), 15.0)
  }

  /** The starting roots lie on the circle of radius 15. */
  lemma ArmRootsOnCircle(m: MathLib, i: nat)
    requires TrigSound(m)
    ensures LengthSq(ArmRoot(m, i)) == Sq(15.0)
  {
    var f := (i as real) / 10.0;
    var v := Vec2(m.sin(f * Pi * 2.0), m.cos(f * Pi * 2.0));
    assert LengthSq(v) == 1.0;
    LengthSqScale(v, 15.0);
  }

  /** Starting arm `i`: rooted on the ring, twelve links of length 10,
      every node at the origin, no destination and no cooldown yet. */
  function StartingArm(m: MathLib, i: nat): Arm {
    Arm(ArmRoot(m, i), Zero, 0.0, PathChain(ArmLinks, LinkDistance))
  }

  /** The arm `AddFullArm` adds: rooted at the goal's centre, fifty links. */
  const FullArm: Arm := Arm(Zero, Zero, 0.0, PathChain(FullArmLinks, LinkDistance))

  /** Every arm's chain is a path whose links have non-negative lengths. */
  predicate ArmsValid(arms: seq<Arm>) {
    forall j :: 0 <= j < |arms| ==>
      ChainValid(arms[j].chain) && NonNegativeDistances(arms[j].chain.connections)
  }

  /** The held food at `food` is within reach of the head of chain `c` on
      a goal at `goal`. */
  predicate Feeds(c: Chain, food: Vec2, goal: Vec2) {
    Within(food, Add(HeadOf(c.positions), goal), MouthRadius)
  }

  /** The first even-numbered arm from `from` on whose head reaches the
      food. */
  function FirstFeeding(arms: seq<Arm>, food: Vec2, goal: Vec2, from: nat): (r: Option<nat>)
    requires from <= |arms|
    ensures r.Some? ==> from <= r.value < |arms| && r.value % 2 == 0 && Feeds(arms[r.value].chain, food, goal)
    ensures forall j :: from <= j < |arms| && (r.None? || j < r.value) && j % 2 == 0 ==>
                          !Feeds(arms[j].chain, food, goal)
    decreases |arms| - from
  {
    if from == |arms| then None
    else if from % 2 == 0 && Feeds(arms[from].chain, food, goal) then Some(from)
    else FirstFeeding(arms, food, goal, from + 1)
  }

  /** The random values a wandering arm draws on one frame, each in [0, 1):
      its reach, its turn and its rest. */
  datatype ArmDraw = ArmDraw(reach: real, turn: real, rest: real)

  /** The aim an arm takes on one frame: a chasing arm heads for the food,
      relative to the goal; a wandering arm's cooldown runs down at 60 per
      second, and once it is below zero a new destination around the head
      and a new cooldown are drawn. The chain is left alone. */
  function Aimed(m: MathLib, chase: bool, a: Arm, food: Vec2, goal: Vec2, draw: ArmDraw, dt: real): (r: Arm)
    ensures r.chain == a.chain && r.relativeRoot == a.relativeRoot
  {
    if chase then a.(destination := Sub(food, goal))
    else
      var c := a.cooldown - dt * 60.0;
      if c < 0.0 then
        a.(destination := Add(HeadOf(a.chain.positions), Polar(m, draw.reach * 500.0, draw.turn * Pi * 2.0)),
           cooldown := 5.0 + 3.0 * draw.rest)
      else a.(cooldown := c)
  }

  /** A wandering arm that draws anew picks a spot less than 500 from its
      head and a cooldown in [5, 8); one that does not keeps its
      destination; a chasing arm keeps its cooldown. */
  lemma AimedRanges(m: MathLib, chase: bool, a: Arm, food: Vec2, goal: Vec2, draw: ArmDraw, dt: real)
    requires TrigSound(m) && 0.0 <= draw.reach < 1.0 && 0.0 <= draw.rest < 1.0
    ensures var r := Aimed(m, chase, a, food, goal, draw, dt);
            (chase ==> r.destination == Sub(food, goal) && r.cooldown == a.cooldown) &&
            (!chase && a.cooldown - dt * 60.0 < 0.0 ==>
               5.0 <= r.cooldown < 8.0 && LengthSq(Sub(r.destination, HeadOf(a.chain.positions))) < Sq(500.0)) &&
            (!chase && a.cooldown - dt * 60.0 >= 0.0 ==>
               r.destination == a.destination && r.cooldown == a.cooldown - dt * 60.0)
  {
    if !chase && a.cooldown - dt * 60.0 < 0.0 {
      var v := Polar(m, draw.reach * 500.0, draw.turn * Pi * 2.0);
      PolarLength(m, draw.reach * 500.0, draw.turn * Pi * 2.0);
      SubOfAdd(HeadOf(a.chain.positions), v);
      SquareStrictlyMonotone(draw.reach * 500.0, 500.0);
      SquareNonNegative(draw.reach * 500.0);
    }
  }

  /** The arm-update rate: five times the normal rate while chasing. */
  function Rate(chase: bool): real {
    if chase then ChaseSpeed else 1.0
  }

  /** One frame of one arm: it takes its aim, then `arm.Update(dt * rate)`. */
  function Stepped(m: MathLib, chase: bool, a: Arm, food: Vec2, goal: Vec2, draw: ArmDraw, dt: real): Arm
    requires ChainValid(a.chain)
  {
    Updated(m, Aimed(m, chase, a, food, goal, draw, dt), dt * Rate(chase))
  }

  /** Arm `j` chases on this frame: food is held near the goal, the arm is
      even-numbered, and no earlier arm has eaten the food yet. */
  predicate Chasing(j: nat, holding: bool, fed: Option<nat>) {
    holding && j % 2 == 0 && (fed.None? || j <= fed.value)
  }

  /** The arms after the arm loop of one frame, which fed arm `fed`. */
  function ArmsAfter(m: MathLib, arms: seq<Arm>, holding: bool, fed: Option<nat>, food: Vec2, goal: Vec2,
                     draws: seq<ArmDraw>, dt: real): (r: seq<Arm>)
    requires ArmsValid(arms) && |draws| == |arms|
    ensures |r| == |arms|
    ensures forall j {:trigger r[j]} :: 0 <= j < |arms| ==>
              r[j] == Stepped(m, Chasing(j, holding, fed), arms[j], food, goal, draws[j], dt)
  {
    seq(|arms|, j requires 0 <= j < |arms| =>
          Stepped(m, Chasing(j, holding, fed), arms[j], food, goal, draws[j], dt))
  }

  /** The arm loop keeps every arm's root and links, pins every arm's root
      end at its root, keeps every link within its length, and sends every
      chasing arm after the food. */
  lemma ArmsAfterKeeps(m: MathLib, arms: seq<Arm>, holding: bool, fed: Option<nat>, food: Vec2, goal: Vec2,
                       draws: seq<ArmDraw>, dt: real)
    requires ArmsValid(arms) && |draws| == |arms|
    ensures var r := ArmsAfter(m, arms, holding, fed, food, goal, draws, dt);
            ArmsValid(r) &&
            forall j :: 0 <= j < |arms| ==>
              r[j].relativeRoot == arms[j].relativeRoot &&
              r[j].chain.connections == arms[j].chain.connections &&
              r[j].chain.positions[|r[j].chain.connections|] == arms[j].relativeRoot &&
              (Chasing(j, holding, fed) ==> r[j].destination == Sub(food, goal) && r[j].cooldown == arms[j].cooldown) &&
              (SqrtSound(m) ==> AllWithin(r[j].chain.positions, r[j].chain.connections))
  {
    var r := ArmsAfter(m, arms, holding, fed, food, goal, draws, dt);
    forall j | 0 <= j < |arms|
      ensures ChainValid(r[j].chain) && NonNegativeDistances(r[j].chain.connections)
      ensures r[j].relativeRoot == arms[j].relativeRoot && r[j].chain.connections == arms[j].chain.connections
      ensures r[j].chain.positions[|r[j].chain.connections|] == arms[j].relativeRoot
      ensures Chasing(j, holding, fed) ==> r[j].destination == Sub(food, goal) && r[j].cooldown == arms[j].cooldown
      ensures SqrtSound(m) ==> AllWithin(r[j].chain.positions, r[j].chain.connections)
    {
      var chase := Chasing(j, holding, fed);
      UpdatedKeeps(m, Aimed(m, chase, arms[j], food, goal, draws[j], dt), dt * Rate(chase));
    }
  }

  /** The aiming half of one turn of the arm loop, on arm `a`: a chasing
      arm heads for the food at five times the pace and eats it when its
      head is within the mouth; any other arm runs down its cooldown and
      draws a new destination once it is spent. */
  method Aim(m: MathLib, a: Arm, chase: bool, food: Vec2, goal: Vec2, draw: ArmDraw, dt: real)
    returns (aimed: Arm, speed: real, eats: bool)
    ensures aimed == Aimed(m, chase, a, food, goal, draw, dt) && speed == Rate(chase)
    ensures eats <==> chase && Feeds(a.chain, food, goal)
  {
    aimed := a;
    speed := 1.0;
    eats := false;
    if chase {
      aimed := aimed.(destination := Sub(food, goal));
      speed := ChaseSpeed;
      if Within(food, Add(HeadOf(aimed.chain.positions), goal), MouthRadius) {
        eats := true;
      }
    } else {
      aimed := aimed.(cooldown := aimed.cooldown - dt * 60.0);
      if aimed.cooldown < 0.0 {
        aimed := aimed.(destination := Add(HeadOf(aimed.chain.positions),
                                           Polar(m, draw.reach * 500.0, draw.turn * Pi * 2.0)),
                        cooldown := 5.0 + 3.0 * draw.rest);
      }
    }
  }

  /** One turn of the arm loop on arm `a`: it takes its aim, then
      `arm.Update(dt * speed)`. */
  method Step(m: MathLib, a: Arm, chase: bool, food: Vec2, goal: Vec2, draw: ArmDraw, dt: real)
    returns (next: Arm, eats: bool)
    requires ChainValid(a.chain)
    ensures next == Stepped(m, chase, a, food, goal, draw, dt)
    ensures eats <==> chase && Feeds(a.chain, food, goal)
  {
    var arm, speed;
    arm, speed, eats := Aim(m, a, chase, food, goal, draw, dt);
    next := Updated(m, arm, dt * speed);
  }

  /** The arms of the arm loop, one after another: while the food is held
      near the goal and no arm has eaten it yet, an even arm heads for it
      at five times the pace and eats it if its head reaches the mouth;
      any other arm wanders. `fed` is the arm that ate. */
  method ArmsStepped(m: MathLib, arms: seq<Arm>, holding: bool, food: Vec2, goal: Vec2,
                     draws: seq<ArmDraw>, dt: real) returns (r: seq<Arm>, fed: Option<nat>)
    requires ArmsValid(arms) && |draws| == |arms|
    ensures fed == if holding then FirstFeeding(arms, food, goal, 0) else None
    ensures r == ArmsAfter(m, arms, holding, fed, food, goal, draws, dt)
  {
    ghost var first := if holding then FirstFeeding(arms, food, goal, 0) else None;
    r := [];
    fed := None;
    var index := 0;
    while index < |arms|
      invariant 0 <= index <= |arms| && |r| == index
      invariant fed == if first.Some? && first.value < index then first else None
      invariant forall j :: 0 <= j < index ==>
                  r[j] == Stepped(m, Chasing(j, holding, first), arms[j], food, goal, draws[j], dt)
    {
      var chase := holding && fed.None? && index % 2 == 0;
      assert chase == Chasing(index, holding, first);
      var next, eats := Step(m, arms[index], chase, food, goal, draws[index], dt);
      if eats {
        fed := Some(index);
      }
      r := r + [next];
      index := index + 1;
    }
  }

  /** One more link of length 10 on every arm. */
  function Lengthened(arms: seq<Arm>): (r: seq<Arm>)
    ensures |r| == |arms|
    ensures forall j :: 0 <= j < |arms| ==> r[j] == arms[j].(chain := Linked(arms[j].chain, LinkDistance))
  {
    seq(|arms|, j requires 0 <= j < |arms| => arms[j].(chain := Linked(arms[j].chain, LinkDistance)))
  }

  /** `n` turns of the growth loop: a full arm, then a link on every arm. */
  function Grown(arms: seq<Arm>, n: nat): seq<Arm>
    decreases n
  {
    if n == 0 then arms else Lengthened(Grown(arms, n - 1) + [FullArm])
  }

  /** The growth in closed form: after `n` feeds every old arm has `n` more
      links (each new node at the origin) and nothing else changed, and the
      `k`-th new arm is a full arm with `50 + n - k` links. */
  lemma {:induction false} GrownShape(arms: seq<Arm>, n: nat)
    ensures |Grown(arms, n)| == |arms| + n
    ensures forall j :: 0 <= j < |arms| ==>
              Grown(arms, n)[j] == arms[j].(chain := LinkedTimes(arms[j].chain, LinkDistance, n))
    ensures forall j :: |arms| <= j < |arms| + n ==>
              Grown(arms, n)[j] == FullArm.(chain := PathChain(FullArmLinks + n - (j - |arms|), LinkDistance))
    decreases n
  {
    if n > 0 {
      GrownShape(arms, n - 1);
      var g := Grown(arms, n - 1) + [FullArm];
      forall j | |arms| <= j < |arms| + n
        ensures Grown(arms, n)[j] == FullArm.(chain := PathChain(FullArmLinks + n - (j - |arms|), LinkDistance))
      {
        var a := FullArmLinks + n - 1 - (j - |arms|);
        LinkedPathChain(a, LinkDistance, 1);
        assert g[j].chain == PathChain(a, LinkDistance);
      }
    }
  }

  /** Growth keeps every arm's chain a path of non-negative links. */
  lemma GrownValid(arms: seq<Arm>, n: nat)
    requires ArmsValid(arms)
    ensures ArmsValid(Grown(arms, n))
  {
    GrownShape(arms, n);
    var g := Grown(arms, n);
    forall j | 0 <= j < |g|
      ensures ChainValid(g[j].chain) && NonNegativeDistances(g[j].chain.connections)
    {
      if j < |arms| {
        var c := arms[j].chain;
        LinkedTimesShape(c, LinkDistance, n);
        var r := LinkedTimes(c, LinkDistance, n);
        forall i | 0 <= i < |r.connections|
          ensures 0.0 <= r.connections[i].distance
        {
          if i < |c.connections| {
            assert r.connections[i] == r.connections[..|c.connections|][i];
          }
        }
      }
    }
  }

  class Goal {
    var flaggedForDestroy: bool
    var position: Vec2
    /** `_arms`, in order. */
    var arms: seq<Arm>
    var player: Player?
    var pendingArms: int
    var spawnTimer: real
    var auraLevel: int
    var consumeTimer: real

    /** The goal invariant: no pending feed is negative, and every arm's
        chain is a path of non-negative links. */
    ghost predicate Valid()
      reads this
    {
      0 <= pendingArms && ArmsValid(arms)
    }

    /** The food the player holds, if there is a player holding one. */
    function HeldFood(): Food?
      reads this, player
    {
      if player != null then player.heldFood else null
    }

    /** `new Goal(world)`: ten arms of twelve links rooted on a small ring,
        no player, nothing pending. */
    constructor (m: MathLib)
      ensures Valid() && !flaggedForDestroy && position == Zero && player == null
      ensures pendingArms == 0 && spawnTimer == 0.0 && auraLevel == 0 && consumeTimer == 0.0
      ensures |arms| == ArmCount && forall i :: 0 <= i < |arms| ==> arms[i] == StartingArm(m, i)
    {
      flaggedForDestroy := false;
      position := Zero;
      player := null;
      pendingArms := 0;
      spawnTimer := 0.0;
      auraLevel := 0;
      consumeTimer := 0.0;
      arms := [];
      new;
      var i := 0;
      while i < 10
        invariant 0 <= i <= 10 && |arms| == i
        invariant Valid() && player == null && pendingArms == 0 && !flaggedForDestroy && position == Zero
        invariant spawnTimer == 0.0 && auraLevel == 0 && consumeTimer == 0.0
        invariant forall j :: 0 <= j < i ==> arms[j] == StartingArm(m, j)
      {
        var arm := NewArm(ArmRoot(m, i), 12);
        arms := arms + [arm];
        i := i + 1;
      }
    }

    /** `IncreaseAuraLevel()`. */
    method IncreaseAuraLevel()
      modifies this`auraLevel
      ensures auraLevel == old(auraLevel) + 1
    {
      auraLevel := auraLevel + 1;
    }

    /** `FocalWeight()`: the goal draws the camera with weight 3. */
    function FocalWeight(): (w: real)
      ensures w == 3.0
    {
      3.0
    }

    /** `EditorHitTest` fails always. */
    function EditorHitTest(mouse: Vec2): (hit: bool)
      ensures !hit
    {
      false
    }

    /** `CreatePlayer()`: a new player at the goal, its whole tail on the
        head, at full speed. The source appends it to the world's entities;
        here it is returned for the caller to append. */
    method CreatePlayer() returns (p: Player)
      modifies this`player
      ensures fresh(p) && player == p && p.Valid()
      ensures p.position == position && p.tail == AllAt(position, PlayerTailLength)
      ensures p.forwardSpeed == PlayerHandling.maximumSpeed && p.heldFood == null
      ensures !p.flaggedForDestroy && p.facingAngle == -Pi / 2.0
    {
      p := new Player();
      p.position := position;
      p.MoveAllTailSegmentsToHead();
      p.Boost();
      player := p;
    }

    /** `KillPlayer()`: a live player is destroyed and forgotten, and a
        reload is requested (returned here; the source calls
        `World.RequestReload`). Without a player nothing happens. */
    method KillPlayer() returns (reloadRequested: bool)
      modifies this`player, (if player != null then {player} else {})`flaggedForDestroy
      ensures player == null
      ensures reloadRequested <==> old(player) != null
      ensures old(player) != null ==> old(player).flaggedForDestroy
    {
      reloadRequested := false;
      if player != null {
        player.Destroy();
        player := null;
        reloadRequested := true;
      }
    }

    /** `SpawningInput(leftIsDown, rightIsDown, dt)`. While there is no
        player, the even arms reach up to a random spot while the left
        button is down and the odd ones while the right one is; both held
        for more than a second spawn the player, otherwise the timer runs
        back down to zero. `draws[i]` is the random value drawn for arm `i`.
        The new player is returned for the caller to add to the world. */
    method SpawningInput(leftIsDown: bool, rightIsDown: bool, dt: real, draws: seq<real>)
      returns (spawned: Player?)
      requires Valid() && |draws| == |arms|
      modifies this`spawnTimer, this`player, this`arms
      ensures Valid() && |arms| == |old(arms)|
      ensures forall i :: 0 <= i < |arms| ==>
                arms[i] ==
                  if old(player) == null && ((i % 2 == 0 && leftIsDown) || (i % 2 == 1 && rightIsDown))
                  then old(arms[i]).(destination := Vec2((draws[i] - 0.5) * 1600.0, -800.0))
                  else old(arms[i])
      ensures old(player) != null ==> spawned == null && player == old(player) &&
                                      spawnTimer == old(spawnTimer)
      ensures old(player) == null && leftIsDown && rightIsDown ==>
                spawnTimer == old(spawnTimer) + dt && (spawned != null <==> spawnTimer > 1.0)
      ensures old(player) == null && !(leftIsDown && rightIsDown) ==>
                spawnTimer == Floored(old(spawnTimer) - dt, 0.0) && spawned == null
      ensures old(player) == null ==> player == spawned
      ensures spawned != null ==>
                fresh(spawned) && spawned.Valid() && spawned.position == position &&
                spawned.tail == AllAt(position, PlayerTailLength) &&
                spawned.forwardSpeed == PlayerHandling.maximumSpeed && spawned.heldFood == null
    {
      spawned := null;
      if player == null {
        var index := 0;
        while index < |arms|
          invariant 0 <= index <= |arms| == |old(arms)| && Valid()
          invariant player == null && spawnTimer == old(spawnTimer)
          invariant forall i :: 0 <= i < |arms| ==>
                      arms[i] ==
                        if i < index && ((i % 2 == 0 && leftIsDown) || (i % 2 == 1 && rightIsDown))
                        then old(arms[i]).(destination := Vec2((draws[i] - 0.5) * 1600.0, -800.0))
                        else old(arms[i])
        {
          if (index % 2 == 0 && leftIsDown) || (index % 2 == 1 && rightIsDown) {
            arms := arms[index := arms[index].(destination := Vec2((draws[index] - 0.5) * 1600.0, -800.0))];
          }
          index := index + 1;
        }
        if leftIsDown && rightIsDown {
          spawnTimer := spawnTimer + dt;
          if spawnTimer > 1.0 {
            spawned := CreatePlayer();
          }
        } else {
          spawnTimer := spawnTimer - dt;
          if spawnTimer < 0.0 {
            spawnTimer := 0.0;
          }
        }
      }
    }

    /** `Update(dt)`: the consume timer runs down, every arm chases the
        held food or wanders (`draws[i]` are arm `i`'s random values) and
        moves, the first even arm whose head reaches the food eats it, and
        then every pending feed grows a full arm and one more link on every
        arm. `fed` is the arm that ate, if any (the source fires `WasFed`). */
    method Update(m: MathLib, dt: real, draws: seq<ArmDraw>) returns (fed: Option<nat>)
      requires Valid() && |draws| == |arms|
      modifies this`pendingArms, this`arms, this`consumeTimer,
               (if player != null then {player} else {})`heldFood,
               (if HeldFood() != null then {HeldFood()} else {})`flaggedForDestroy
      ensures Valid() && pendingArms == 0 && player == old(player)
      ensures var holding := old(player != null && player.heldFood != null &&
                                 Within(player.position, position, FeedingRange));
              var food := old(if player != null && player.heldFood != null then player.heldFood.position else Zero);
              var grown := old(pendingArms) + (if fed.Some? then 1 else 0);
              (holding ==> fed == FirstFeeding(old(arms), food, position, 0)) &&
              (!holding ==> fed == None) &&
              arms == Grown(ArmsAfter(m, old(arms), holding, fed, food, position, draws, dt), grown) &&
              consumeTimer == (if grown > 0 then 1.0
                               else if old(consumeTimer) > 0.0 then old(consumeTimer) - dt else 0.0)
      ensures fed.Some? ==> old(player.heldFood).flaggedForDestroy && player.heldFood == null
      ensures fed.None? && old(player) != null ==> player.heldFood == old(player.heldFood)
    {
      if consumeTimer > 0.0 {
        consumeTimer := consumeTimer - dt;
      } else {
        consumeTimer := 0.0;
      }
      fed := UpdateArms(m, dt, draws);
      GrowArms();
    }

    /** The arm loop of `Update`: the arms step (see `ArmsStepped`); the
        arm that reaches the held food eats it: the food is destroyed, the
        player lets go of it and one more arm is pending. */
    method UpdateArms(m: MathLib, dt: real, draws: seq<ArmDraw>) returns (fed: Option<nat>)
      requires Valid() && |draws| == |arms|
      modifies this`pendingArms, this`arms,
               (if player != null then {player} else {})`heldFood,
               (if HeldFood() != null then {HeldFood()} else {})`flaggedForDestroy
      ensures Valid() && player == old(player)
      ensures var holding := old(player != null && player.heldFood != null &&
                                 Within(player.position, position, FeedingRange));
              var food := old(if player != null && player.heldFood != null then player.heldFood.position else Zero);
              (holding ==> fed == FirstFeeding(old(arms), food, position, 0)) &&
              (!holding ==> fed == None) &&
              pendingArms == old(pendingArms) + (if fed.Some? then 1 else 0) &&
              arms == ArmsAfter(m, old(arms), holding, fed, food, position, draws, dt)
      ensures fed.Some? ==> old(player.heldFood).flaggedForDestroy && player.heldFood == null
      ensures fed.None? && old(player) != null ==> player.heldFood == old(player.heldFood)
    {
      var holding := player != null && player.heldFood != null &&
                     Within(player.position, position, FeedingRange);
      var foodAt := if player != null && player.heldFood != null then player.heldFood.position else Zero;
      var stepped;
      stepped, fed := ArmsStepped(m, arms, holding, foodAt, position, draws, dt);
      ArmsAfterKeeps(m, arms, holding, fed, foodAt, position, draws, dt);
      arms := stepped;
      if fed.Some? {
        var held := player.heldFood;
        held.Destroy();
        player.DeleteFood();
        pendingArms := pendingArms + 1;
      }
    }

    /** The growth loop of `Update`: each pending feed adds a full arm at
        the goal and then one link on every arm, the new one included. */
    method GrowArms()
      requires Valid()
      modifies this`arms, this`consumeTimer, this`pendingArms
      ensures Valid() && pendingArms == 0
      ensures arms == Grown(old(arms), old(pendingArms))
      ensures consumeTimer == if old(pendingArms) > 0 then 1.0 else old(consumeTimer)
    {
      var t := 0;
      while t < pendingArms
        invariant 0 <= t <= pendingArms && pendingArms == old(pendingArms) && Valid()
        invariant arms == Grown(old(arms), t)
        invariant consumeTimer == if t > 0 then 1.0 else old(consumeTimer)
      {
        AddFullArm();
        AddLinkToEveryArm();
        t := t + 1;
      }
      pendingArms := 0;
    }

    /** `AddFullArm()`: a fresh 50-link arm rooted at the goal's centre. */
    method AddFullArm()
      requires Valid()
      modifies this`arms, this`consumeTimer
      ensures Valid() && consumeTimer == 1.0 && arms == old(arms) + [FullArm]
    {
      consumeTimer := 1.0;
      var arm := NewArm(Zero, 50);
      arms := arms + [arm];
    }

    /** The inner loop of the growth: `AddLink(10)` on every arm's chain. */
    method AddLinkToEveryArm()
      requires Valid()
      modifies this`arms
      ensures Valid() && arms == Lengthened(old(arms))
    {
      var k := 0;
      while k < |arms|
        invariant 0 <= k <= |arms| == |old(arms)| && Valid()
        invariant forall j :: 0 <= j < |arms| ==>
                    arms[j] == if j < k then Lengthened(old(arms))[j] else old(arms[j])
      {
        arms := arms[k := arms[k].(chain := Linked(arms[k].chain, LinkDistance))];
        k := k + 1;
      }
    }
  }
}
