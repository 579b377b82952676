/** The level file's records (`Level`, `WallData` in `EditorSession.cs`)
    and the kinds of entity the world holds. */
module Levels {
  import opened Geometry
  import opened Entities
  import opened Serializable
  import opened Players
  import opened Enemies
  import opened Goals
  import opened ObstacleRenderers

  /** The default `WallData.Radius`. */
  const DefaultWallRadius: real := 100.0

  /** `WallData`: a wall's centre and radius. */
  datatype WallData = WallData(position: SerializableVector2, radius: real)

  /** `new WallData()`: at the origin, radius 100. */
  function NewWallData(): (w: WallData)
    ensures ToVector2(w.position) == Zero && w.radius == DefaultWallRadius
  {
    WallData(DefaultVector(), DefaultWallRadius)
  }

  /** An entry of `Level.Currents`. The level class shown declares no such
      list although `World` reads one; its entries carry what `World`
      reads: a position, a radius and an angle. */
  datatype CurrentData = CurrentData(position: SerializableVector2, radius: real, angle: real)

  /** A placed `Current`: where it is, its radius and its angle. Its
      behaviour (`Current.cs`) is not part of this model. */
  datatype Current = Current(position: Vec2, radius: real, angle: real)

  /** An entry of `World.Entities`, by its class. Obstacles and currents
      are values (nothing writes them once placed); the others are objects. */
  datatype EntityRef =
    | GoalEntity(goal: Goal)
    | PlayerEntity(player: Player)
    | WallEntity(wall: Obstacle)
    | CurrentEntity(current: Current)
    | FoodEntity(food: Food)
    | EnemyEntity(enemy: Enemy)
    | OutlineEntity(renderer: ObstacleRenderer)

  /** The obstacles among the entries, in entity order: what
      `Entities.Where(a => a is Obstacle)` yields. */
  function Walls(es: seq<EntityRef>): seq<Obstacle> {
    if |es| == 0 then []
    else Walls(es[..|es| - 1]) + (if es[|es| - 1].WallEntity? then [es[|es| - 1].wall] else [])
  }

  /** Entries without an obstacle have no walls. */
  lemma {:induction false} NoWalls(es: seq<EntityRef>)
    requires forall i :: 0 <= i < |es| ==> !es[i].WallEntity?
    ensures Walls(es) == []
    decreases |es|
  {
    if |es| > 0 {
      NoWalls(es[..|es| - 1]);
    }
  }

  /** The walls of a concatenation are the walls of each part. */
  lemma {:induction false} WallsAppend(a: seq<EntityRef>, b: seq<EntityRef>)
    ensures Walls(a + b) == Walls(a) + Walls(b)
    decreases |b|
  {
    if |b| == 0 {
      assert a + b == a;
    } else {
      assert (a + b)[..|a + b| - 1] == a + b[..|b| - 1];
      assert (a + b)[|a + b| - 1] == b[|b| - 1];
      WallsAppend(a, b[..|b| - 1]);
    }
  }

  /** The content of a `Level`. */
  datatype LevelData = LevelData(goalSpawn: SerializableVector2, obstacles: seq<WallData>,
                                 currents: seq<CurrentData>, foods: seq<SerializableVector2>,
                                 enemies: seq<SerializableVector2>)

  /** The elements of `s` whose position `at` is not `p`, in order: what
      `RemoveAll(x => at(x) == p)` leaves. */
  function Without<T(!new)>(s: seq<T>, at: T -> Vec2, p: Vec2): (r: seq<T>)
    ensures |r| <= |s|
    ensures forall x :: x in r <==> x in s && at(x) != p
    ensures (forall x :: x in s ==> at(x) != p) ==> r == s
  {
    if |s| == 0 then []
    else if at(s[0]) == p then Without(s[1..], at, p)
    else [s[0]] + Without(s[1..], at, p)
  }

  /** Removing the elements at `p` a second time removes nothing more. */
  lemma WithoutIsIdempotent<T(!new)>(s: seq<T>, at: T -> Vec2, p: Vec2)
    ensures Without(Without(s, at, p), at, p) == Without(s, at, p)
  {
  }

  /** An element appended at `p` is removed with the others at `p`. */
  lemma {:induction false} WithoutAppendedAt<T(!new)>(s: seq<T>, x: T, at: T -> Vec2, p: Vec2)
    requires at(x) == p
    ensures Without(s + [x], at, p) == Without(s, at, p)
    decreases |s|
  {
    if |s| == 0 {
      assert [x][1..] == [];
    } else {
      assert (s + [x])[1..] == s[1..] + [x];
      WithoutAppendedAt(s[1..], x, at, p);
    }
  }

  /** The position of a wall record. */
  function WallPosition(w: WallData): Vec2 {
    ToVector2(w.position)
  }

  /** The empty level of `new Level()`: the spawn at the origin and every
      list empty. */
  function EmptyLevel(): LevelData {
    LevelData(DefaultVector(), [], [], [], [])
  }

  /** What `DeleteRelatedData(entity)` leaves of `d`: deleting an obstacle
      removes every wall record at its position, a food every food point
      at its position and an enemy every enemy point at its position; any
      other entity changes nothing. */
  function DeletedRelated(d: LevelData, e: EntityRef): (r: LevelData)
    reads if e.FoodEntity? then {e.food} else {}
    reads if e.EnemyEntity? then {e.enemy} else {}
    ensures r.goalSpawn == d.goalSpawn && r.currents == d.currents
    ensures e.WallEntity? ==> forall w :: w in r.obstacles <==> w in d.obstacles && WallPosition(w) != e.wall.position
    ensures e.FoodEntity? ==> forall f :: f in r.foods <==> f in d.foods && ToVector2(f) != e.food.position
    ensures e.EnemyEntity? ==> forall n :: n in r.enemies <==> n in d.enemies && ToVector2(n) != e.enemy.position
    ensures !e.WallEntity? ==> r.obstacles == d.obstacles
    ensures !e.FoodEntity? ==> r.foods == d.foods
    ensures !e.EnemyEntity? ==> r.enemies == d.enemies
  {
    match e
    case WallEntity(o) => d.(obstacles := Without(d.obstacles, WallPosition, o.position))
    case FoodEntity(f) => d.(foods := Without(d.foods, ToVector2, f.position))
    case EnemyEntity(n) => d.(enemies := Without(d.enemies, ToVector2, n.position))
    case _ => d
  }

  /** Deleting the data related to one entity twice deletes nothing more. */
  lemma DeletedRelatedIsIdempotent(d: LevelData, e: EntityRef)
    ensures DeletedRelated(DeletedRelated(d, e), e) == DeletedRelated(d, e)
  {
    match e
    case WallEntity(o) => WithoutIsIdempotent(d.obstacles, WallPosition, o.position);
    case FoodEntity(f) => WithoutIsIdempotent(d.foods, ToVector2, f.position);
    case EnemyEntity(n) => WithoutIsIdempotent(d.enemies, ToVector2, n.position);
    case _ =>
  }

  /** `Level`: the editable content of a level file. */
  class Level {
    var goalSpawn: SerializableVector2
    var obstacles: seq<WallData>
    /** `Currents`, which `World` reads. */
    var currents: seq<CurrentData>
    var foods: seq<SerializableVector2>
    var enemies: seq<SerializableVector2>

    function Data(): LevelData
      reads this
    {
      LevelData(goalSpawn, obstacles, currents, foods, enemies)
    }

    /** `new Level()`: the spawn at the origin and every list empty. */
    constructor ()
      ensures Data() == EmptyLevel()
    {
      goalSpawn := DefaultVector();
      obstacles := [];
      currents := [];
      foods := [];
      enemies := [];
    }

    /** A level as deserialized from a file holding `d`. */
    constructor FromData(d: LevelData)
      ensures Data() == d
    {
      goalSpawn := d.goalSpawn;
      obstacles := d.obstacles;
      currents := d.currents;
      foods := d.foods;
      enemies := d.enemies;
    }

    /** `DeleteRelatedData(entity)`. */
    method DeleteRelatedData(e: EntityRef)
      modifies this`obstacles, this`foods, this`enemies
      ensures Data() == DeletedRelated(old(Data()), e)
    {
      if e.WallEntity? {
        obstacles := Without(obstacles, WallPosition, e.wall.position);
      }
      if e.FoodEntity? {
        foods := Without(foods, ToVector2, e.food.position);
      }
      if e.EnemyEntity? {
        enemies := Without(enemies, ToVector2, e.enemy.position);
      }
    }
  }
}
