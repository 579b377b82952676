/** `EditorSession.cs`: the level editor. Its tools edit the current level;
    keys cycle the tool, move between level files, save, and resize the
    wall tool. The file system becomes a map from file name to level. */
module Editors {
  import opened Geometry
  import opened Serializable
  import opened Levels
  import opened Worlds

  /** The editor's tools, in the order of its tool list. */
  datatype Tool = PlacePlayer | PlaceWall | PlaceFood | PlaceEnemy

  const Tools: seq<Tool> := [PlacePlayer, PlaceWall, PlaceFood, PlaceEnemy]

  /** `PlaceWallTool.Radius` when the editor starts. */
  const InitialWallToolRadius: real := 50.0

  /** How far one press of plus or minus moves the wall radius. */
  const RadiusStep: real := 10.0

  /** Holding Shift multiplies the step by this. */
  const ShiftFactor: real := 10.0

  // ---------------------------------------------------------------------
  // Tool and level indices

  /** The tool after pressing A: the previous one, from the first wrapping
      to the last. */
  function PreviousTool(i: int): (r: int)
    requires 0 <= i < |Tools|
    ensures 0 <= r < |Tools|
    ensures r == (i - 1) % |Tools|
  {
    if i - 1 < 0 then |Tools| - 1 else i - 1
  }

  /** The tool after pressing D: the next one, from the last wrapping to
      the first. */
  function NextTool(i: int): (r: int)
    requires 0 <= i < |Tools|
    ensures 0 <= r < |Tools|
    ensures r == if i == |Tools| - 1 then 0 else i + 1
  {
    (i + 1) % |Tools|
  }

  /** A and D undo each other. */
  lemma ToolKeysAreInverse(i: int)
    requires 0 <= i < |Tools|
    ensures NextTool(PreviousTool(i)) == i
    ensures PreviousTool(NextTool(i)) == i
  {
  }

  /** The level index after pressing Q: one less, but never below zero. */
  function PreviousLevel(i: int): (r: int)
    ensures r >= 0
    ensures i >= 1 ==> r == i - 1
    ensures i <= 1 ==> r == 0
  {
    if i - 1 < 0 then 0 else i - 1
  }

  /** The level index after pressing E: one more. */
  function NextLevel(i: int): (r: int)
    ensures r - i == 1
  {
    i + 1
  }

  /** Q undoes E on every level index the editor can reach. */
  lemma LevelKeysReturn(i: int)
    requires i >= 0
    ensures PreviousLevel(NextLevel(i)) == i
  {
  }

  // ---------------------------------------------------------------------
  // Level file names

  /** The character of a decimal digit. */
  function DigitChar(d: int): (c: char)
    requires 0 <= d < 10
    ensures '0' <= c <= '9' && c as int - '0' as int == d
  {
    ('0' as int + d) as char
  }

  /** The value of a digit character. */
  function DigitValue(c: char): (d: nat)
    requires '0' <= c <= '9'
    ensures d < 10 && DigitChar(d) == c
  {
    c as int - '0' as int
  }

  /** The decimal digits of `n`, most significant first, with no leading
      zero. */
  function Digits(n: nat): (r: string)
    ensures |r| >= 1
    ensures forall i :: 0 <= i < |r| ==> '0' <= r[i] <= '9'
    ensures r[0] == '0' ==> n == 0
  {
    if n < 10 then [DigitChar(n)] else Digits(n / 10) + [DigitChar(n % 10)]
  }

  /** The number a string of digits denotes. */
  function ParseDigits(s: string): nat
    requires forall i :: 0 <= i < |s| ==> '0' <= s[i] <= '9'
  {
    if |s| == 0 then 0 else 10 * ParseDigits(s[..|s| - 1]) + DigitValue(s[|s| - 1])
  }

  /** Reading the digits of `n` back gives `n`. */
  lemma {:induction false} ParseDigitsOfDigits(n: nat)
    ensures ParseDigits(Digits(n)) == n
  {
    var r := Digits(n);
    if n < 10 {
      assert r[..|r| - 1] == [];
    } else {
      assert r[..|r| - 1] == Digits(n / 10);
      ParseDigitsOfDigits(n / 10);
    }
  }

  /** An `int` as string interpolation writes it: a minus sign before the
      digits of a negative number. */
  function Decimal(n: int): (r: string)
    ensures |r| >= 1
    ensures (r[0] == '-') <==> n < 0
  {
    if n < 0 then "-" + Digits(-n) else Digits(n)
  }

  /** Different numbers have different digits. */
  lemma DigitsIsInjective(m: nat, n: nat)
    requires Digits(m) == Digits(n)
    ensures m == n
  {
    ParseDigitsOfDigits(m);
    ParseDigitsOfDigits(n);
  }

  /** Different numbers are written differently. */
  lemma DecimalIsInjective(a: int, b: int)
    ensures Decimal(a) == Decimal(b) ==> a == b
  {
    if Decimal(a) == Decimal(b) {
      if a < 0 && b < 0 {
        assert Decimal(a)[1..] == Digits(-a);
        assert Decimal(b)[1..] == Digits(-b);
        DigitsIsInjective(-a, -b);
      } else if 0 <= a && 0 <= b {
        DigitsIsInjective(a, b);
      }
    }
  }

  /** `LevelName()`: the file of level `i`. */
  function LevelName(i: int): (r: string)
    ensures |r| == |Decimal(i)| + 17
    ensures r[..12] == "Levels/level" && r[|r| - 5..] == ".json"
    ensures r[12..|r| - 5] == Decimal(i)
  {
    "Levels/level" + Decimal(i) + ".json"
  }

  /** Different levels are kept in different files. */
  lemma LevelNameIsInjective(i: int, j: int)
    ensures LevelName(i) == LevelName(j) ==> i == j
  {
    if LevelName(i) == LevelName(j) {
      DecimalIsInjective(i, j);
    }
  }

  // ---------------------------------------------------------------------
  // Tools

  /** `PlaceWallTool`: the radius its walls get. */
  class PlaceWallTool {
    var radius: real

    constructor ()
      ensures radius == InitialWallToolRadius
    {
      radius := InitialWallToolRadius;
    }
  }

  /** The level after `tool.Use(mouse, level)`, `radius` being the wall
      tool's radius: the player tool moves the spawn to the mouse, each other
      tool appends one record at the mouse to its own list. */
  function Used(tool: Tool, radius: real, mouse: Vec2, d: LevelData): (r: LevelData)
    ensures r.currents == d.currents
    ensures tool == PlacePlayer ==> ToVector2(r.goalSpawn) == mouse
    ensures tool != PlacePlayer ==> r.goalSpawn == d.goalSpawn
    ensures tool == PlaceWall ==>
              |r.obstacles| == |d.obstacles| + 1 && r.obstacles[..|d.obstacles|] == d.obstacles &&
              WallPosition(r.obstacles[|d.obstacles|]) == mouse && r.obstacles[|d.obstacles|].radius == radius
    ensures tool != PlaceWall ==> r.obstacles == d.obstacles
    ensures tool == PlaceFood ==>
              |r.foods| == |d.foods| + 1 && r.foods[..|d.foods|] == d.foods && ToVector2(r.foods[|d.foods|]) == mouse
    ensures tool != PlaceFood ==> r.foods == d.foods
    ensures tool == PlaceEnemy ==>
              |r.enemies| == |d.enemies| + 1 && r.enemies[..|d.enemies|] == d.enemies &&
              ToVector2(r.enemies[|d.enemies|]) == mouse
    ensures tool != PlaceEnemy ==> r.enemies == d.enemies
  {
    match tool
    case PlacePlayer => d.(goalSpawn := Implicit(mouse))
    case PlaceWall => d.(obstacles := d.obstacles + [WallData(FromVector2(mouse), radius)])
    case PlaceFood => d.(foods := d.foods + [FromVector2(mouse)])
    case PlaceEnemy => d.(enemies := d.enemies + [FromVector2(mouse)])
  }

  /** Deleting what sits at `p` after placing a food, an enemy or a wall at
      `p` removes the new record together with the old ones at `p`: the
      level is as if the removal had come first. When nothing of that kind
      was at `p`, the placement is undone. */
  lemma DeleteUndoesPlacement(tool: Tool, radius: real, p: Vec2, d: LevelData)
    requires tool != PlacePlayer
    ensures tool == PlaceWall ==>
              Without(Used(tool, radius, p, d).obstacles, WallPosition, p) == Without(d.obstacles, WallPosition, p)
    ensures tool == PlaceFood ==>
              Without(Used(tool, radius, p, d).foods, ToVector2, p) == Without(d.foods, ToVector2, p)
    ensures tool == PlaceEnemy ==>
              Without(Used(tool, radius, p, d).enemies, ToVector2, p) == Without(d.enemies, ToVector2, p)
    ensures tool == PlaceFood && (forall f :: f in d.foods ==> ToVector2(f) != p) ==>
              Without(Used(tool, radius, p, d).foods, ToVector2, p) == d.foods
  {
    match tool
    case PlaceWall => WithoutAppendedAt(d.obstacles, WallData(FromVector2(p), radius), WallPosition, p);
    case PlaceFood => WithoutAppendedAt(d.foods, FromVector2(p), ToVector2, p);
    case PlaceEnemy => WithoutAppendedAt(d.enemies, FromVector2(p), ToVector2, p);
  }

  /** `tool.Use(mouse, level)` on the level object. */
  method UseTool(tool: Tool, radius: real, mouse: Vec2, level: Level)
    modifies level`goalSpawn, level`obstacles, level`foods, level`enemies
    ensures level.Data() == Used(tool, radius, mouse, old(level.Data()))
  {
    match tool
    case PlacePlayer => level.goalSpawn := Implicit(mouse);
    case PlaceWall => level.obstacles := level.obstacles + [WallData(FromVector2(mouse), radius)];
    case PlaceFood => level.foods := level.foods + [FromVector2(mouse)];
    case PlaceEnemy => level.enemies := level.enemies + [FromVector2(mouse)];
  }

  /** The wall radius after one frame's plus and minus presses: plus adds
      the step, minus takes it away, Shift makes the step ten times larger,
      and nothing keeps the radius positive. */
  function AdjustedRadius(radius: real, shift: bool, plus: bool, minus: bool): (r: real)
    ensures var step := if shift then RadiusStep * ShiftFactor else RadiusStep;
            r - radius == (if plus && !minus then step else if minus && !plus then -step else 0.0)
  {
    var delta := if shift then RadiusStep * ShiftFactor else RadiusStep;
    var added := if plus then radius + delta else radius;
    if minus then added - delta else added
  }

  /** Six presses of minus take the initial radius below zero. */
  lemma RadiusHasNoLowerBound()
    ensures AdjustedRadius(AdjustedRadius(AdjustedRadius(AdjustedRadius(AdjustedRadius(AdjustedRadius(
              InitialWallToolRadius, false, false, true), false, false, true), false, false, true),
              false, false, true), false, false, true), false, false, true) < 0.0
  {
  }

  // ---------------------------------------------------------------------
  // The editor's state as a value

  /** What the editor keeps: the level and tool indices, the wall tool's
      radius, the level being edited and the level files. */
  datatype EditorState = EditorState(levelIndex: int, toolIndex: int, radius: real,
                                     level: LevelData, files: map<string, LevelData>)

  /** The indices the editor keeps in range. */
  predicate ValidState(s: EditorState) {
    0 <= s.toolIndex < |Tools| && 0 <= s.levelIndex
  }

  /** `LoadCurrentLevel`: the level stored under `name`, or a new empty
      level when there is no such file. */
  function LoadedFrom(files: map<string, LevelData>, name: string): (d: LevelData)
    ensures name !in files ==> d == EmptyLevel()
  {
    if name in files then files[name] else EmptyLevel()
  }

  /** `SaveCurrentLevel`: the level is written to its own file; nothing
      else changes. */
  function Saved(s: EditorState): (r: EditorState)
    ensures LevelName(s.levelIndex) in r.files && r.files[LevelName(s.levelIndex)] == s.level
    ensures forall n :: n != LevelName(s.levelIndex) ==> (n in r.files <==> n in s.files)
    ensures forall n :: n != LevelName(s.levelIndex) && n in s.files ==> r.files[n] == s.files[n]
    ensures r.levelIndex == s.levelIndex && r.toolIndex == s.toolIndex
    ensures r.radius == s.radius && r.level == s.level
  {
    s.(files := s.files[LevelName(s.levelIndex) := s.level])
  }

  /** Reading the current level's file replaces the level being edited. */
  function Loaded(s: EditorState): (r: EditorState)
    ensures r.level == LoadedFrom(s.files, LevelName(s.levelIndex))
    ensures r.levelIndex == s.levelIndex && r.toolIndex == s.toolIndex
    ensures r.radius == s.radius && r.files == s.files
  {
    s.(level := LoadedFrom(s.files, LevelName(s.levelIndex)))
  }

  /** Saving and reading back the same file gives the level that was
      being edited. */
  lemma LoadAfterSaveKeepsLevel(s: EditorState)
    ensures Loaded(Saved(s)) == Saved(s)
  {
  }

  /** Q: save, step back one level (not below zero), read that level. */
  function KeyQ(s: EditorState): (r: EditorState)
    ensures r.levelIndex == PreviousLevel(s.levelIndex)
    ensures r.level == LoadedFrom(Saved(s).files, LevelName(PreviousLevel(s.levelIndex)))
  {
    Loaded(Saved(s).(levelIndex := PreviousLevel(s.levelIndex)))
  }

  /** E: save, step forward one level, read that level. */
  function KeyE(s: EditorState): (r: EditorState)
    ensures r.levelIndex == s.levelIndex + 1
    ensures r.level == LoadedFrom(Saved(s).files, LevelName(s.levelIndex + 1))
  {
    Loaded(Saved(s).(levelIndex := NextLevel(s.levelIndex)))
  }

  /** Pressing E and then Q comes back to the level that was being edited,
      with its edits: E saved it, and reading the next level under a
      different name does not touch that file. */
  lemma QAfterEReturns(s: EditorState)
    requires s.levelIndex >= 0
    ensures KeyQ(KeyE(s)).levelIndex == s.levelIndex
    ensures KeyQ(KeyE(s)).level == s.level
    ensures KeyQ(KeyE(s)).files[LevelName(s.levelIndex)] == s.level
  {
    LevelNameIsInjective(s.levelIndex, s.levelIndex + 1);
  }

  /** Q on the first level saves it and reads it straight back. */
  lemma QOnFirstLevelKeepsLevel(s: EditorState)
    requires s.levelIndex == 0
    ensures KeyQ(s).levelIndex == 0 && KeyQ(s).level == s.level
  {
  }

  /** One frame's input, reduced to what the editor's logic uses: the mouse
      in world coordinates and the buttons and keys. */
  datatype InputFrame = InputFrame(mouse: Vec2, leftPressed: bool, rightDown: bool,
                                   aPressed: bool, dPressed: bool, qPressed: bool, ePressed: bool,
                                   control: bool, sPressed: bool, f5Pressed: bool,
                                   shift: bool, plusPressed: bool, minusPressed: bool)

  /** A left click: the current tool is used at the mouse. */
  function Clicked(s: EditorState, f: InputFrame): (r: EditorState)
    requires ValidState(s)
    ensures ValidState(r)
    ensures r.level == if f.leftPressed then Used(Tools[s.toolIndex], s.radius, f.mouse, s.level) else s.level
    ensures r.levelIndex == s.levelIndex && r.toolIndex == s.toolIndex
    ensures r.radius == s.radius && r.files == s.files
  {
    if f.leftPressed then s.(level := Used(Tools[s.toolIndex], s.radius, f.mouse, s.level)) else s
  }

  /** A and D: the previous and the next tool. */
  function ToolKeys(s: EditorState, f: InputFrame): (r: EditorState)
    requires ValidState(s)
    ensures ValidState(r)
    ensures r.levelIndex == s.levelIndex && r.radius == s.radius && r.level == s.level && r.files == s.files
  {
    var a := if f.aPressed then s.(toolIndex := PreviousTool(s.toolIndex)) else s;
    if f.dPressed then a.(toolIndex := NextTool(a.toolIndex)) else a
  }

  /** Q and E: to the previous and to the next level. */
  function LevelKeys(s: EditorState, f: InputFrame): (r: EditorState)
    requires ValidState(s)
    ensures ValidState(r)
    ensures r.toolIndex == s.toolIndex && r.radius == s.radius
  {
    var q := if f.qPressed then KeyQ(s) else s;
    if f.ePressed then KeyE(q) else q
  }

  /** Ctrl-S and F5 both save; F5 also asks to play. */
  function SaveKeys(s: EditorState, f: InputFrame): (r: EditorState)
    ensures r.levelIndex == s.levelIndex && r.toolIndex == s.toolIndex
    ensures r.radius == s.radius && r.level == s.level
    ensures (f.control && f.sPressed) || f.f5Pressed ==> r == Saved(s)
    ensures !((f.control && f.sPressed) || f.f5Pressed) ==> r == s
  {
    var saved := if f.control && f.sPressed then Saved(s) else s;
    if f.f5Pressed then Saved(saved) else saved
  }

  /** Plus and minus, while the wall tool is selected. */
  function RadiusKeys(s: EditorState, f: InputFrame): (r: EditorState)
    requires ValidState(s)
    ensures r.levelIndex == s.levelIndex && r.toolIndex == s.toolIndex && r.level == s.level && r.files == s.files
    ensures r.radius == if Tools[s.toolIndex] == PlaceWall
                        then AdjustedRadius(s.radius, f.shift, f.plusPressed, f.minusPressed) else s.radius
  {
    if Tools[s.toolIndex] == PlaceWall
    then s.(radius := AdjustedRadius(s.radius, f.shift, f.plusPressed, f.minusPressed))
    else s
  }

  /** The keys, in the order the editor handles them: A, D, Q, E, Ctrl-S,
      F5, then plus and minus when the wall tool is selected. */
  function KeysApplied(s: EditorState, f: InputFrame): (r: EditorState)
    requires ValidState(s)
    ensures ValidState(r)
  {
    RadiusKeys(SaveKeys(LevelKeys(ToolKeys(s, f), f), f), f)
  }

  /** The radius changes only while the wall tool is selected once the
      tool keys are handled. */
  lemma RadiusOnlyWithWallTool(s: EditorState, f: InputFrame)
    requires ValidState(s)
    requires !f.aPressed && !f.dPressed && Tools[s.toolIndex] != PlaceWall
    ensures KeysApplied(s, f).radius == s.radius
    ensures KeysApplied(s, f).toolIndex == s.toolIndex
  {
  }

  /** Keys that neither move between levels nor save leave the files as
      they were. */
  lemma FilesChangeOnlyBySaving(s: EditorState, f: InputFrame)
    requires ValidState(s)
    requires !f.qPressed && !f.ePressed && !(f.control && f.sPressed) && !f.f5Pressed
    ensures KeysApplied(s, f).files == s.files
    ensures KeysApplied(s, f).level == s.level
    ensures KeysApplied(s, f).levelIndex == s.levelIndex
  {
  }

  /** Every key that leaves the level (Q, E) or plays it (F5) saves it
      first, so the file holds the level being edited. */
  lemma LeavingSavesTheLevel(s: EditorState, f: InputFrame)
    requires ValidState(s)
    requires f.f5Pressed
    ensures LevelName(KeysApplied(s, f).levelIndex) in KeysApplied(s, f).files
    ensures KeysApplied(s, f).files[LevelName(KeysApplied(s, f).levelIndex)] == KeysApplied(s, f).level
  {
  }

  /** The index of the first entity whose hit test passed, or the number
      of entities when none did. */
  function FirstHit(hits: seq<bool>): (k: nat)
    ensures k <= |hits|
    ensures forall j :: 0 <= j < k ==> !hits[j]
    ensures k < |hits| ==> hits[k]
  {
    if |hits| == 0 then 0
    else if hits[0] then 0
    else 1 + FirstHit(hits[1..])
  }

  // ---------------------------------------------------------------------
  // The session

  /** `EditorSession`. */
  class EditorSession {
    /** The world the editor draws the level into. */
    const world: World
    /** The wall tool, the one tool with state. */
    const wallTool: PlaceWallTool
    var levelIndex: int
    var toolIndex: int
    var currentLevel: Level
    /** The repository's level files. */
    var files: map<string, LevelData>

    function State(): EditorState
      reads this, wallTool, currentLevel
    {
      EditorState(levelIndex, toolIndex, wallTool.radius, currentLevel.Data(), files)
    }

    predicate Valid()
      reads this
    {
      0 <= toolIndex < |Tools| && 0 <= levelIndex
    }

    /** A session on the first level, with the player tool selected. */
    constructor (m: MathLib, levelFiles: map<string, LevelData>)
      ensures Valid()
      ensures State() == EditorState(0, 0, InitialWallToolRadius, LoadedFrom(levelFiles, LevelName(0)), levelFiles)
      ensures fresh(world) && world.entities == []
    {
      world := new World(m);
      wallTool := new PlaceWallTool();
      levelIndex := 0;
      toolIndex := 0;
      files := levelFiles;
      currentLevel := new Level.FromData(LoadedFrom(levelFiles, LevelName(0)));
    }

    /** `SaveCurrentLevel`. */
    method SaveCurrentLevel()
      modifies this`files
      ensures State() == Saved(old(State()))
    {
      files := files[LevelName(levelIndex) := currentLevel.Data()];
    }

    /** `LoadCurrentLevel`. */
    method LoadCurrentLevel()
      modifies this`currentLevel
      ensures fresh(currentLevel)
      ensures State() == Loaded(old(State()))
    {
      var name := LevelName(levelIndex);
      if name in files {
        currentLevel := new Level.FromData(files[name]);
      } else {
        currentLevel := new Level();
      }
    }

    /** The right button held: the first entity, in list order, whose hit
        test at the mouse passed (`hits[i]` for `world.entities[i]`) has its
        level data deleted, and no other. */
    method DeleteUnderMouse(hits: seq<bool>) returns (deleted: bool)
      requires |hits| == |world.entities|
      modifies currentLevel`obstacles, currentLevel`foods, currentLevel`enemies
      ensures deleted <==> FirstHit(hits) < |hits|
      ensures deleted ==> currentLevel.Data() == DeletedRelated(old(currentLevel.Data()), world.entities[FirstHit(hits)])
      ensures !deleted ==> currentLevel.Data() == old(currentLevel.Data())
    {
      for i := 0 to |hits|
        invariant forall j :: 0 <= j < i ==> !hits[j]
      {
        if hits[i] {
          assert FirstHit(hits) == i by { FirstHitIs(hits, i); }
          currentLevel.DeleteRelatedData(world.entities[i]);
          return true;
        }
      }
      assert FirstHit(hits) == |hits| by { FirstHitIs(hits, |hits|); }
      return false;
    }

    /** `UpdateInput` for one frame: the left click, then the right click,
        which ends the frame once it deletes something, then the keys.
        `playRequested` is whether `RequestPlay` was raised. */
    method UpdateInput(f: InputFrame, hits: seq<bool>) returns (deleted: bool, playRequested: bool)
      requires Valid() && |hits| == |world.entities|
      modifies this, wallTool, currentLevel
      ensures Valid()
      ensures deleted <==> f.rightDown && FirstHit(hits) < |hits|
      ensures deleted ==> State() == Clicked(old(State()), f).(level :=
                DeletedRelated(Clicked(old(State()), f).level, world.entities[FirstHit(hits)]))
      ensures !deleted ==> State() == KeysApplied(Clicked(old(State()), f), f)
      ensures playRequested <==> !deleted && f.f5Pressed
    {
      if f.leftPressed {
        UseTool(Tools[toolIndex], wallTool.radius, f.mouse, currentLevel);
      }
      ghost var clicked := State();
      deleted, playRequested := false, false;
      if f.rightDown {
        deleted := DeleteUnderMouse(hits);
        if deleted {
          return;
        }
      }
      assert State() == clicked;
      playRequested := HandleKeys(f);
    }

    /** The keys of one frame, in order. */
    method HandleKeys(f: InputFrame) returns (playRequested: bool)
      requires Valid()
      modifies this, wallTool
      ensures Valid() && State() == KeysApplied(old(State()), f)
      ensures playRequested == f.f5Pressed
    {
      HandleToolKeys(f);
      HandleLevelKeys(f);
      playRequested := HandleSaveKeys(f);
      HandleRadiusKeys(f);
    }

    /** A and D. */
    method HandleToolKeys(f: InputFrame)
      requires Valid()
      modifies this`toolIndex
      ensures Valid() && State() == ToolKeys(old(State()), f)
    {
      if f.aPressed {
        toolIndex := toolIndex - 1;
        if toolIndex < 0 {
          toolIndex := |Tools| - 1;
        }
      }
      if f.dPressed {
        toolIndex := (toolIndex + 1) % |Tools|;
      }
    }

    /** Q and E. */
    method HandleLevelKeys(f: InputFrame)
      requires Valid()
      modifies this`files, this`levelIndex, this`currentLevel
      ensures Valid() && State() == LevelKeys(old(State()), f)
    {
      if f.qPressed {
        SaveCurrentLevel();
        levelIndex := levelIndex - 1;
        if levelIndex < 0 {
          levelIndex := 0;
        }
        LoadCurrentLevel();
      }
      if f.ePressed {
        SaveCurrentLevel();
        levelIndex := levelIndex + 1;
        LoadCurrentLevel();
      }
    }

    /** Ctrl-S and F5; whether `RequestPlay` was raised. */
    method HandleSaveKeys(f: InputFrame) returns (playRequested: bool)
      modifies this`files
      ensures State() == SaveKeys(old(State()), f)
      ensures playRequested == f.f5Pressed
    {
      if f.control && f.sPressed {
        SaveCurrentLevel();
      }
      playRequested := false;
      if f.f5Pressed {
        SaveCurrentLevel();
        playRequested := true;
      }
    }

    /** Plus and minus, for the wall tool. */
    method HandleRadiusKeys(f: InputFrame)
      requires Valid()
      modifies wallTool
      ensures State() == RadiusKeys(old(State()), f)
    {
      if Tools[toolIndex] == PlaceWall {
        var delta := RadiusStep;
        if f.shift {
          delta := delta * ShiftFactor;
        }
        if f.plusPressed {
          wallTool.radius := wallTool.radius + delta;
        }
        if f.minusPressed {
          wallTool.radius := wallTool.radius - delta;
        }
      }
    }
  }

  /** `k` is the first hit when the entries before it missed and it hit
      (or it is the end). */
  lemma {:induction false} FirstHitIs(hits: seq<bool>, k: nat)
    requires k <= |hits|
    requires forall j :: 0 <= j < k ==> !hits[j]
    requires k < |hits| ==> hits[k]
    ensures FirstHit(hits) == k
    decreases k
  {
    if k > 0 {
      FirstHitIs(hits[1..], k - 1);
    }
  }
}
