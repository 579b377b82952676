/** `World.cs`: the entity list of one level and the level counters. A
    level is loaded as the goal, then the walls, currents, foods and
    enemies of the file in file order, then one outline renderer; a
    seamless load keeps only the goal and the player and shifts the new
    level so that its spawn point lands on the goal. */
module Worlds {
  import opened Geometry
  import opened Entities
  import opened Serializable
  import opened Players
  import opened Enemies
  import opened Goals
  import opened ObstacleRenderers
  import opened Levels

  /** `CreateWall(position, radius)`: an obstacle of that radius there. */
  function PlacedWall(w: WallData, offset: Vec2): Obstacle {
    Obstacle(Add(ToVector2(w.position), offset), w.radius)
  }

  /** `CreateCurrent(position, radius, angle)`, moved by `offset`. */
  function PlacedCurrent(c: CurrentData, offset: Vec2): Current {
    Current(Add(ToVector2(c.position), offset), c.radius, c.angle)
  }

  /** The walls of a level, moved by `offset`, in file order. */
  function PlacedWalls(walls: seq<WallData>, offset: Vec2): (r: seq<Obstacle>)
    ensures |r| == |walls|
    ensures forall i :: 0 <= i < |walls| ==> r[i] == PlacedWall(walls[i], offset)
  {
    seq(|walls|, i requires 0 <= i < |walls| => PlacedWall(walls[i], offset))
  }

  /** A food as `new Food()` leaves it, placed at `p`. */
  predicate NewFoodAt(f: Food, p: Vec2)
    reads f
  {
    f.position == p && !f.isEaten && !f.flaggedForDestroy &&
    f.flame == 1.0 && f.flash == 0.0 && f.shineTime == 0.0
  }

  /** An enemy as `new Enemy(world)` leaves it, placed at `p`. */
  predicate NewEnemyAt(e: Enemy, p: Vec2)
    reads e
  {
    e.position == p && e.velocity == Zero && e.target == null &&
    e.motionTime == 0.0 && !e.flaggedForDestroy
  }

  /** The entries a load appends for `level`, moved by `offset`, given the
      foods, enemies and renderer it creates: the walls, the currents, the
      foods and the enemies in file order, then the renderer. */
  function Imports(level: LevelData, offset: Vec2, foods: seq<Food>, enemies: seq<Enemy>,
                   renderer: ObstacleRenderer): (r: seq<EntityRef>)
    ensures |r| == |level.obstacles| + |level.currents| + |foods| + |enemies| + 1
    ensures r[|r| - 1] == OutlineEntity(renderer)
  {
    WallEntities(level.obstacles, offset) + CurrentEntities(level.currents, offset) +
    FoodEntities(foods) + EnemyEntities(enemies) + [OutlineEntity(renderer)]
  }

  /** The world's wall loop: a wall entity per record, moved by `offset`. */
  function WallEntities(walls: seq<WallData>, offset: Vec2): (r: seq<EntityRef>)
    ensures |r| == |walls|
    ensures forall i :: 0 <= i < |walls| ==> r[i] == WallEntity(PlacedWall(walls[i], offset))
  {
    seq(|walls|, i requires 0 <= i < |walls| => WallEntity(PlacedWall(walls[i], offset)))
  }

  /** The world's current loop: a current per record, moved by `offset`. */
  function CurrentEntities(currents: seq<CurrentData>, offset: Vec2): (r: seq<EntityRef>)
    ensures |r| == |currents|
    ensures forall i :: 0 <= i < |currents| ==> r[i] == CurrentEntity(PlacedCurrent(currents[i], offset))
  {
    seq(|currents|, i requires 0 <= i < |currents| => CurrentEntity(PlacedCurrent(currents[i], offset)))
  }

  /** The foods as entries of the entity list. */
  function FoodEntities(foods: seq<Food>): (r: seq<EntityRef>)
    ensures |r| == |foods| && forall i :: 0 <= i < |foods| ==> r[i] == FoodEntity(foods[i])
  {
    seq(|foods|, i requires 0 <= i < |foods| => FoodEntity(foods[i]))
  }

  /** The enemies as entries of the entity list. */
  function EnemyEntities(enemies: seq<Enemy>): (r: seq<EntityRef>)
    ensures |r| == |enemies| && forall i :: 0 <= i < |enemies| ==> r[i] == EnemyEntity(enemies[i])
  {
    seq(|enemies|, i requires 0 <= i < |enemies| => EnemyEntity(enemies[i]))
  }

  /** A new food stands at each of `points`, moved by `offset`, in order. */
  ghost predicate FoodsPlaced(points: seq<SerializableVector2>, offset: Vec2, foods: seq<Food>)
    reads foods
  {
    |foods| == |points| &&
    forall i :: 0 <= i < |foods| ==> NewFoodAt(foods[i], Add(ToVector2(points[i]), offset))
  }

  /** A new enemy stands at each of `points`, moved by `offset`, in order. */
  ghost predicate EnemiesPlaced(points: seq<SerializableVector2>, offset: Vec2, enemies: seq<Enemy>)
    reads enemies
  {
    |enemies| == |points| &&
    forall i :: 0 <= i < |enemies| ==> NewEnemyAt(enemies[i], Add(ToVector2(points[i]), offset))
  }

  /** `renderer` is an outline of `walls`, as its constructor leaves it. */
  ghost predicate OutlineOf(m: MathLib, walls: seq<Obstacle>, renderer: ObstacleRenderer)
    reads renderer
  {
    renderer.lines == Outline(m, walls) && renderer.depth == DepthMiddle - 10
  }

  /** The obstacles after the loops of a load are the earlier ones and
      then the level's walls, moved by `offset`, in file order: currents,
      foods and enemies are not obstacles. */
  lemma LoadedWalls(before: seq<EntityRef>, level: LevelData, offset: Vec2, foods: seq<Food>, enemies: seq<Enemy>)
    ensures Walls(before + WallEntities(level.obstacles, offset) + CurrentEntities(level.currents, offset) +
                  FoodEntities(foods) + EnemyEntities(enemies))
            == Walls(before) + PlacedWalls(level.obstacles, offset)
  {
    var ws := WallEntities(level.obstacles, offset);
    var cs := CurrentEntities(level.currents, offset);
    var fs := FoodEntities(foods);
    var ns := EnemyEntities(enemies);
    WallEntitiesWalls(level.obstacles, offset);
    NoWalls(cs);
    NoWalls(fs);
    NoWalls(ns);
    WallsAppend(before, ws);
    WallsAppend(before + ws, cs);
    WallsAppend(before + ws + cs, fs);
    WallsAppend(before + ws + cs + fs, ns);
  }

  /** The obstacles an import adds are exactly the level's walls, moved by
      `offset`, in file order. */
  lemma ImportedWalls(level: LevelData, offset: Vec2, foods: seq<Food>, enemies: seq<Enemy>,
                      renderer: ObstacleRenderer)
    ensures Walls(Imports(level, offset, foods, enemies, renderer)) == PlacedWalls(level.obstacles, offset)
  {
    var loops := WallEntities(level.obstacles, offset) + CurrentEntities(level.currents, offset) +
                 FoodEntities(foods) + EnemyEntities(enemies);
    LoadedWalls([], level, offset, foods, enemies);
    assert [] + WallEntities(level.obstacles, offset) == WallEntities(level.obstacles, offset);
    NoWalls([OutlineEntity(renderer)]);
    WallsAppend(loops, [OutlineEntity(renderer)]);
  }

  /** The obstacles of the wall loop's entries are the placed walls. */
  lemma {:induction false} WallEntitiesWalls(walls: seq<WallData>, offset: Vec2)
    ensures Walls(WallEntities(walls, offset)) == PlacedWalls(walls, offset)
    decreases |walls|
  {
    if |walls| > 0 {
      var w := walls[..|walls| - 1];
      WallEntitiesWalls(w, offset);
      assert WallEntities(walls, offset)[..|walls| - 1] == WallEntities(w, offset);
      assert PlacedWalls(walls, offset) == PlacedWalls(w, offset) + [PlacedWall(walls[|walls| - 1], offset)];
    }
  }

  /** The entries a seamless load keeps: the players and goals, in order. */
  function KeptOnReload(es: seq<EntityRef>): (r: seq<EntityRef>)
    ensures |r| <= |es|
    ensures forall i :: 0 <= i < |r| ==> r[i] in es && (r[i].PlayerEntity? || r[i].GoalEntity?)
    ensures forall i :: 0 <= i < |es| && (es[i].PlayerEntity? || es[i].GoalEntity?) ==> es[i] in r
  {
    if |es| == 0 then []
    else if es[0].PlayerEntity? || es[0].GoalEntity? then [es[0]] + KeptOnReload(es[1..])
    else KeptOnReload(es[1..])
  }

  /** Keeping the players and goals leaves no obstacle behind. */
  lemma NoWallsKeptOnReload(es: seq<EntityRef>)
    ensures Walls(KeptOnReload(es)) == []
  {
    NoWalls(KeptOnReload(es));
  }

  /** A seamless reload of a list it has already filtered keeps the same
      entries. */
  lemma {:induction false} KeptOnReloadIsIdempotent(es: seq<EntityRef>)
    ensures KeptOnReload(KeptOnReload(es)) == KeptOnReload(es)
    decreases |es|
  {
    if |es| > 0 {
      KeptOnReloadIsIdempotent(es[1..]);
      if es[0].PlayerEntity? || es[0].GoalEntity? {
        assert ([es[0]] + KeptOnReload(es[1..]))[1..] == KeptOnReload(es[1..]);
      }
    }
  }

  /** The offset of a seamless load puts the file's spawn point on the
      goal. */
  lemma OffsetPutsSpawnOnGoal(spawn: SerializableVector2, goal: Vec2)
    ensures Add(ToVector2(spawn), Sub(goal, ToVector2(spawn))) == goal
  {
  }

  /** With offset zero every imported wall and every new food and enemy
      stands at its file position. */
  lemma ImportedAtZero(level: LevelData, foods: seq<Food>, enemies: seq<Enemy>)
    requires FoodsPlaced(level.foods, Zero, foods) && EnemiesPlaced(level.enemies, Zero, enemies)
    ensures forall i :: 0 <= i < |level.obstacles| ==>
              WallEntities(level.obstacles, Zero)[i] ==
              WallEntity(Obstacle(ToVector2(level.obstacles[i].position), level.obstacles[i].radius))
    ensures forall i :: 0 <= i < |foods| ==> foods[i].position == ToVector2(level.foods[i])
    ensures forall i :: 0 <= i < |enemies| ==> enemies[i].position == ToVector2(level.enemies[i])
  {
  }

  class World {
    var levelIndex: int
    var hasRequestedReload: bool
    var hasSpawnedAtLeastOnce: bool
    var goal: Goal
    /** `Entities`, in order. */
    var entities: seq<EntityRef>

    /** `new World()`: a goal of its own and no entities. */
    constructor (m: MathLib)
      ensures fresh(goal) && goal.Valid() && goal.position == Zero && goal.player == null
      ensures entities == [] && levelIndex == 0 && !hasRequestedReload && !hasSpawnedAtLeastOnce
    {
      levelIndex := 0;
      hasRequestedReload := false;
      hasSpawnedAtLeastOnce := false;
      goal := new Goal(m);
      entities := [];
    }

    /** `CreatePlayerAndGoal(spawnPosition)`: a new goal at the spawn point
        becomes the world's goal and is appended; earlier entries stay. */
    method CreatePlayerAndGoal(m: MathLib, spawn: Vec2)
      modifies this`goal, this`entities
      ensures fresh(goal) && goal.Valid() && goal.position == spawn && goal.player == null
      ensures |goal.arms| == ArmCount && goal.pendingArms == 0 && goal.auraLevel == 0
      ensures entities == old(entities) + [GoalEntity(goal)]
    {
      goal := new Goal(m);
      goal.position := spawn;
      entities := entities + [GoalEntity(goal)];
    }

    /** `LoadLevelWithOffset(level, offset)`: the level's entities, moved by
        `offset`, are appended after the present ones; the foods, enemies
        and the renderer are new objects, and the renderer outlines every
        obstacle the world then holds. */
    method LoadLevelWithOffset(m: MathLib, level: Level, offset: Vec2)
      returns (ghost foods: seq<Food>, ghost enemies: seq<Enemy>, ghost renderer: ObstacleRenderer)
      modifies this`entities
      ensures entities == old(entities) + Imports(level.Data(), offset, foods, enemies, renderer)
      ensures FoodsPlaced(level.foods, offset, foods) && EnemiesPlaced(level.enemies, offset, enemies)
      ensures OutlineOf(m, Walls(old(entities)) + PlacedWalls(level.obstacles, offset), renderer)
      ensures forall i :: 0 <= i < |foods| ==> fresh(foods[i])
      ensures forall i :: 0 <= i < |enemies| ==> fresh(enemies[i])
      ensures fresh(renderer)
    {
      var data := level.Data();
      var placedWalls := WallEntities(data.obstacles, offset);
      var placedCurrents := CurrentEntities(data.currents, offset);
      var newFoods := NewFoods(data.foods, offset);
      var newEnemies := NewEnemies(data.enemies, offset);
      var obstacles := Walls(entities + placedWalls + placedCurrents + FoodEntities(newFoods) + EnemyEntities(newEnemies));
      assert obstacles == Walls(entities) + PlacedWalls(data.obstacles, offset) by {
        LoadedWalls(entities, data, offset, newFoods, newEnemies);
      }
      var outline := NewOutline(m, obstacles);
      entities := entities + Imports(data, offset, newFoods, newEnemies, outline);
      foods, enemies, renderer := newFoods, newEnemies, outline;
    }

    /** `LoadLevel(level)`: the entity list cleared, then the new goal at
        the spawn point, then the level's entities where the file puts
        them. */
    method LoadLevel(m: MathLib, level: Level)
      returns (ghost foods: seq<Food>, ghost enemies: seq<Enemy>, ghost renderer: ObstacleRenderer)
      modifies this`entities, this`goal
      ensures fresh(goal) && goal.Valid() && goal.position == ToVector2(level.goalSpawn) && goal.player == null
      ensures entities == [GoalEntity(goal)] + Imports(level.Data(), Zero, foods, enemies, renderer)
      ensures FoodsPlaced(level.foods, Zero, foods) && EnemiesPlaced(level.enemies, Zero, enemies)
      ensures OutlineOf(m, PlacedWalls(level.obstacles, Zero), renderer)
    {
      entities := [];
      CreatePlayerAndGoal(m, ToVector2(level.goalSpawn));
      NoWalls(entities);
      ghost var started := entities;
      foods, enemies, renderer := LoadLevelWithOffset(m, level, Zero);
      assert Walls(started) + PlacedWalls(level.obstacles, Zero) == PlacedWalls(level.obstacles, Zero);
    }

    /** `LoadLevelSeamless(level)`: only the players and goals stay, in
        their order, and the level is appended moved by the goal's
        position less the file's spawn point. */
    method LoadLevelSeamless(m: MathLib, level: Level)
      returns (ghost foods: seq<Food>, ghost enemies: seq<Enemy>, ghost renderer: ObstacleRenderer)
      modifies this`entities
      ensures var offset := Sub(goal.position, ToVector2(level.goalSpawn));
              entities == KeptOnReload(old(entities)) + Imports(level.Data(), offset, foods, enemies, renderer) &&
              FoodsPlaced(level.foods, offset, foods) && EnemiesPlaced(level.enemies, offset, enemies) &&
              OutlineOf(m, PlacedWalls(level.obstacles, offset), renderer)
    {
      entities := KeptOnReload(entities);
      NoWallsKeptOnReload(old(entities));
      ghost var kept := entities;
      var offset := Sub(goal.position, ToVector2(level.goalSpawn));
      foods, enemies, renderer := LoadLevelWithOffset(m, level, offset);
      assert Walls(kept) + PlacedWalls(level.obstacles, offset) == PlacedWalls(level.obstacles, offset);
    }

    /** `LoadCurrentLevel(spawnNewPlayer)`, for the level read from the
        file of the current index: a new goal first if asked for, then the
        seamless load. */
    method LoadCurrentLevel(m: MathLib, level: Level, spawnNewPlayer: bool)
      returns (ghost foods: seq<Food>, ghost enemies: seq<Enemy>, ghost renderer: ObstacleRenderer)
      modifies this`entities, this`goal
      ensures spawnNewPlayer ==> fresh(goal) && goal.Valid() && goal.position == ToVector2(level.goalSpawn)
      ensures !spawnNewPlayer ==> goal == old(goal)
      ensures var start := if spawnNewPlayer then old(entities) + [GoalEntity(goal)] else old(entities);
              var offset := Sub(goal.position, ToVector2(level.goalSpawn));
              entities == KeptOnReload(start) + Imports(level.Data(), offset, foods, enemies, renderer) &&
              FoodsPlaced(level.foods, offset, foods) && EnemiesPlaced(level.enemies, offset, enemies) &&
              OutlineOf(m, PlacedWalls(level.obstacles, offset), renderer)
    {
      if spawnNewPlayer {
        CreatePlayerAndGoal(m, ToVector2(level.goalSpawn));
      }
      foods, enemies, renderer := LoadLevelSeamless(m, level);
    }

    /** `PlayerDied()`: the goal kills its player, which requests a reload
        if there was one. The sound is not modelled. */
    method PlayerDied()
      modifies this`hasRequestedReload, goal`player, (if goal.player != null then {goal.player} else {})`flaggedForDestroy
      ensures goal.player == null
      ensures hasRequestedReload == (old(hasRequestedReload) || old(goal.player) != null)
      ensures old(goal.player) != null ==> old(goal.player).flaggedForDestroy
    {
      var reload := goal.KillPlayer();
      if reload {
        RequestReload();
      }
    }

    /** `LoadNextLevel()`: one level and one aura level further, then the
        level of the new index, seamlessly. */
    method LoadNextLevel(m: MathLib, next: Level)
      returns (ghost foods: seq<Food>, ghost enemies: seq<Enemy>, ghost renderer: ObstacleRenderer)
      modifies this`levelIndex, this`entities, goal`auraLevel
      ensures levelIndex == old(levelIndex) + 1 && goal.auraLevel == old(goal.auraLevel) + 1
      ensures var offset := Sub(goal.position, ToVector2(next.goalSpawn));
              entities == KeptOnReload(old(entities)) + Imports(next.Data(), offset, foods, enemies, renderer) &&
              FoodsPlaced(next.foods, offset, foods) && EnemiesPlaced(next.enemies, offset, enemies) &&
              OutlineOf(m, PlacedWalls(next.obstacles, offset), renderer)
    {
      levelIndex := levelIndex + 1;
      goal.IncreaseAuraLevel();
      foods, enemies, renderer := LoadLevelSeamless(m, next);
    }

    /** `SkipLevel()`: one level further, the aura level kept, then the
        level of the new index, seamlessly. The log line is not modelled. */
    method SkipLevel(m: MathLib, next: Level)
      returns (ghost foods: seq<Food>, ghost enemies: seq<Enemy>, ghost renderer: ObstacleRenderer)
      modifies this`levelIndex, this`entities
      ensures levelIndex == old(levelIndex) + 1
      ensures var offset := Sub(goal.position, ToVector2(next.goalSpawn));
              entities == KeptOnReload(old(entities)) + Imports(next.Data(), offset, foods, enemies, renderer) &&
              FoodsPlaced(next.foods, offset, foods) && EnemiesPlaced(next.enemies, offset, enemies) &&
              OutlineOf(m, PlacedWalls(next.obstacles, offset), renderer)
    {
      levelIndex := levelIndex + 1;
      foods, enemies, renderer := LoadLevelSeamless(m, next);
    }

    /** `RequestReload()`: only the flag changes. */
    method RequestReload()
      modifies this`hasRequestedReload
      ensures hasRequestedReload
    {
      hasRequestedReload := true;
    }

    /** The end of `Goal.CreatePlayer`: the new player is appended. */
    method AddSpawnedPlayer(p: Player)
      modifies this`entities
      ensures entities == old(entities) + [PlayerEntity(p)]
    {
      entities := entities + [PlayerEntity(p)];
    }
  }

  /** `new ObstacleRenderer(world)` over the world's obstacles `walls`. */
  method NewOutline(m: MathLib, walls: seq<Obstacle>) returns (r: ObstacleRenderer)
    ensures fresh(r) && OutlineOf(m, walls, r)
  {
    r := new ObstacleRenderer(m, walls);
  }

  /** `new Food()` placed at `p`. */
  method PlacedFood(p: Vec2) returns (f: Food)
    ensures fresh(f) && NewFoodAt(f, p)
  {
    f := new Food();
    f.position := p;
  }

  /** `new Enemy(world)` placed at `p`. */
  method PlacedEnemy(p: Vec2) returns (e: Enemy)
    ensures fresh(e) && NewEnemyAt(e, p)
  {
    e := new Enemy(p);
  }

  /** The food loop of `LoadLevelWithOffset`: a new food per point, moved
      by `offset`, in order. */
  method NewFoods(points: seq<SerializableVector2>, offset: Vec2) returns (r: seq<Food>)
    ensures FoodsPlaced(points, offset, r)
    ensures forall i :: 0 <= i < |r| ==> fresh(r[i])
  {
    r := [];
    var i := 0;
    while i < |points|
      invariant 0 <= i <= |points| && |r| == i
      invariant forall j :: 0 <= j < i ==> fresh(r[j]) && NewFoodAt(r[j], Add(ToVector2(points[j]), offset))
    {
      var food := PlacedFood(Add(ToVector2(points[i]), offset));
      r := r + [food];
      i := i + 1;
    }
  }

  /** The enemy loop of `LoadLevelWithOffset`: a new enemy per point,
      moved by `offset`, in order. */
  method NewEnemies(points: seq<SerializableVector2>, offset: Vec2) returns (r: seq<Enemy>)
    ensures EnemiesPlaced(points, offset, r)
    ensures forall i :: 0 <= i < |r| ==> fresh(r[i])
  {
    r := [];
    var i := 0;
    while i < |points|
      invariant 0 <= i <= |points| && |r| == i
      invariant forall j :: 0 <= j < i ==> fresh(r[j]) && NewEnemyAt(r[j], Add(ToVector2(points[j]), offset))
    {
      var enemy := PlacedEnemy(Add(ToVector2(points[i]), offset));
      r := r + [enemy];
      i := i + 1;
    }
  }
}
