/** `LdResourceAssets.cs`: the game's sprite sheets, grouped from the
    frames of a texture atlas, its sounds, and the textures drawn at run
    time. Files, textures, audio decoding and the callbacks that draw a
    texture are outside the model; what they produce is passed in. */
module Resources {
  import opened Wrappers

  // ---------------------------------------------------------------------
  // Sheet names

  /** `s.Replace(pattern, "")`: the occurrences of `pattern` found scanning
      from the left, without overlaps, are removed. */
  function Removed(s: string, pattern: string): (r: string)
    requires |pattern| > 0
    ensures |r| <= |s|
    decreases |s|
  {
    if |s| < |pattern| then s
    else if s[..|pattern|] == pattern then Removed(s[|pattern|..], pattern)
    else [s[0]] + Removed(s[1..], pattern)
  }

  /** `pattern` occurs in `s` at `i`. */
  predicate OccursAt(s: string, pattern: string, i: int) {
    0 <= i && i + |pattern| <= |s| && s[i..i + |pattern|] == pattern
  }

  /** A string without the pattern is left as it is. */
  lemma {:induction false} RemovedWithoutOccurrence(s: string, pattern: string)
    requires |pattern| > 0
    requires forall i :: !OccursAt(s, pattern, i)
    ensures Removed(s, pattern) == s
    decreases |s|
  {
    if |s| >= |pattern| {
      assert !OccursAt(s, pattern, 0);
      forall i | true
        ensures !OccursAt(s[1..], pattern, i)
      {
        if OccursAt(s[1..], pattern, i) {
          assert s[1..][i..i + |pattern|] == s[i + 1..i + 1 + |pattern|];
          assert OccursAt(s, pattern, i + 1);
        }
      }
      RemovedWithoutOccurrence(s[1..], pattern);
    }
  }

  /** `s.Split(" ")` for a one-character separator: the pieces between the
      separators, empty ones included. */
  function Split(s: string, sep: char): (r: seq<string>)
    ensures |r| >= 1
    ensures forall i :: 0 <= i < |r| ==> sep !in r[i]
    ensures sep !in s ==> r == [s]
  {
    if |s| == 0 then [""]
    else if s[0] == sep then [""] + Split(s[1..], sep)
    else
      var rest := Split(s[1..], sep);
      assert s == [s[0]] + s[1..];
      [[s[0]] + rest[0]] + rest[1..]
  }

  /** `string.Join(" ", parts)`. */
  function Join(parts: seq<string>, sep: char): string {
    if |parts| == 0 then ""
    else if |parts| == 1 then parts[0]
    else parts[0] + [sep] + Join(parts[1..], sep)
  }

  /** Joining the pieces of a split gives back the string. */
  lemma {:induction false} JoinSplit(s: string, sep: char)
    ensures Join(Split(s, sep), sep) == s
    decreases |s|
  {
    if |s| > 0 {
      JoinSplit(s[1..], sep);
      var rest := Split(s[1..], sep);
      if s[0] == sep {
        assert ([""] + rest)[1..] == rest;
        assert s == [s[0]] + s[1..];
      } else {
        var parts := [[s[0]] + rest[0]] + rest[1..];
        if |rest| == 1 {
          assert s == [s[0]] + rest[0];
        } else {
          assert parts[1..] == rest[1..];
          assert Join(rest, sep) == rest[0] + [sep] + Join(rest[1..], sep);
          assert s == [s[0]] + s[1..];
        }
      }
    }
  }

  /** A string splits into more than one piece exactly when it holds the
      separator. */
  lemma {:induction false} SplitCount(s: string, sep: char)
    ensures |Split(s, sep)| > 1 <==> sep in s
    decreases |s|
  {
    if |s| > 0 {
      SplitCount(s[1..], sep);
      assert s == [s[0]] + s[1..];
    }
  }

  /** Joining all but the last piece, then the separator and the last piece,
      is joining all the pieces. */
  lemma {:induction false} JoinLast(parts: seq<string>, sep: char)
    requires |parts| >= 2
    ensures Join(parts[..|parts| - 1], sep) + [sep] + parts[|parts| - 1] == Join(parts, sep)
    decreases |parts|
  {
    if |parts| > 2 {
      JoinLast(parts[1..], sep);
      assert parts[1..][..|parts| - 2] == parts[..|parts| - 1][1..];
    }
  }

  /** The frame key with its file extensions removed, `.aseprite` before
      `.ase` before `.png`. */
  function StrippedName(key: string): string {
    Removed(Removed(Removed(key, ".aseprite"), ".ase"), ".png")
  }

  /** The words of a name without a trailing frame number, when there is
      more than one word. */
  function WithoutLastWord(words: seq<string>): (r: seq<string>)
    requires |words| >= 1
    ensures |words| > 1 ==> r == words[..|words| - 1]
    ensures |words| == 1 ==> r == words
  {
    if |words| > 1 then words[..|words| - 1] else words
  }

  /** The sheet a frame belongs to: its stripped key without the last
      space-separated word. */
  function SheetName(key: string): string {
    Join(WithoutLastWord(Split(StrippedName(key), ' ')), ' ')
  }

  /** A stripped key without a space names its sheet as it is. */
  lemma SheetNameOfOneWord(key: string)
    requires ' ' !in StrippedName(key)
    ensures SheetName(key) == StrippedName(key)
  {
  }

  /** A stripped key with a space is the sheet name, a space and a last word
      that holds no space. */
  lemma SheetNameDropsLastWord(key: string)
    requires ' ' in StrippedName(key)
    ensures var words := Split(StrippedName(key), ' ');
            ' ' !in words[|words| - 1] &&
            SheetName(key) + " " + words[|words| - 1] == StrippedName(key)
  {
    var words := Split(StrippedName(key), ' ');
    SplitCount(StrippedName(key), ' ');
    JoinLast(words, ' ');
    JoinSplit(StrippedName(key), ' ');
  }

  /** The longer extension is removed first, so no stray `prite` is left. */
  lemma AsepriteExtensionIsRemovedWhole()
    ensures StrippedName("foo.aseprite") == "foo"
    ensures SheetName("foo.aseprite") == "foo"
  {
    var s := "foo.aseprite";
    assert s[..9][0] != '.' && s[1..][..9][0] != '.' && s[2..][..9][0] != '.';
    assert s[3..][..9] == ".aseprite";
    assert Removed(s[3..], ".aseprite") == "";
    assert Removed(s, ".aseprite") == [s[0]] + Removed(s[1..], ".aseprite");
    assert Removed(s[1..], ".aseprite") == [s[1]] + Removed(s[2..], ".aseprite");
    assert Removed(s[2..], ".aseprite") == [s[2]] + Removed(s[3..], ".aseprite");
    assert Removed(s, ".aseprite") == "foo";
    assert ' ' !in "foo";
  }

  // ---------------------------------------------------------------------
  // Sprite sheets

  /** A texture, by identity. */
  datatype Texture = Texture(id: nat)

  /** `Rectangle`: a frame's place in the atlas. */
  datatype Rectangle = Rectangle(x: int, y: int, width: int, height: int)

  /** An atlas frame: its key and its rectangle. */
  datatype Frame = Frame(key: string, rect: Rectangle)

  /** A sprite sheet: one that selects frames of a texture, or one that a
      caller generated from a drawn texture. */
  datatype SpriteSheet =
    | SelectFrameSheet(texture: Texture, frames: seq<Rectangle>)
    | GeneratedSheet(texture: Texture)

  /** A frame's rectangle with the name of the sheet it belongs to. */
  datatype Placed = Placed(sheet: string, rect: Rectangle)

  /** The frames of the atlas with their sheet names, in file order. */
  function Placement(frames: seq<Frame>): (r: seq<Placed>)
    ensures |r| == |frames|
    ensures forall i :: 0 <= i < |frames| ==> r[i] == Placed(SheetName(frames[i].key), frames[i].rect)
  {
    seq(|frames|, i requires 0 <= i < |frames| => Placed(SheetName(frames[i].key), frames[i].rect))
  }

  /** The sheets after grouping some frames, and whether every frame was
      added; adding a frame to a sheet that selects no frames fails. */
  datatype Grouping = Grouping(sheets: map<string, SpriteSheet>, complete: bool)

  /** The frame loop of the atlas load event: each frame's rectangle is
      appended to its sheet, which is made on the first frame that names
      it. It stops at a frame whose sheet is a generated one. */
  function Grouped(sheets: map<string, SpriteSheet>, atlas: Texture, placed: seq<Placed>): Grouping
    decreases |placed|
  {
    if |placed| == 0 then Grouping(sheets, true)
    else
      var name := placed[0].sheet;
      var withSheet := if name in sheets then sheets else sheets[name := SelectFrameSheet(atlas, [])];
      if !withSheet[name].SelectFrameSheet? then Grouping(withSheet, false)
      else
        var sheet := withSheet[name];
        Grouped(withSheet[name := sheet.(frames := sheet.frames + [placed[0].rect])], atlas, placed[1..])
  }

  /** The rectangles of the frames that belong to sheet `name`, in order. */
  function FramesNamed(placed: seq<Placed>, name: string): seq<Rectangle> {
    if |placed| == 0 then []
    else (if placed[0].sheet == name then [placed[0].rect] else []) + FramesNamed(placed[1..], name)
  }

  /** The names of the sheets the frames belong to. */
  function NamesOf(placed: seq<Placed>): set<string> {
    if |placed| == 0 then {} else {placed[0].sheet} + NamesOf(placed[1..])
  }

  /** The frames of sheet `name`, none when there is no such sheet or it
      selects no frames. */
  function FramesOf(sheets: map<string, SpriteSheet>, name: string): seq<Rectangle> {
    if name in sheets && sheets[name].SelectFrameSheet? then sheets[name].frames else []
  }

  /** Every sheet selects frames of a texture. */
  predicate AllSelectFrames(sheets: map<string, SpriteSheet>) {
    forall n :: n in sheets ==> sheets[n].SelectFrameSheet?
  }

  /** The sheets after the first frame of a grouping onto sheets that all
      select frames. */
  function Stepped(sheets: map<string, SpriteSheet>, atlas: Texture, p: Placed): (r: map<string, SpriteSheet>)
    requires AllSelectFrames(sheets)
    ensures AllSelectFrames(r)
    ensures r.Keys == sheets.Keys + {p.sheet}
    ensures forall n :: n in sheets ==> r[n].texture == sheets[n].texture
    ensures p.sheet !in sheets ==> r[p.sheet].texture == atlas
  {
    var name := p.sheet;
    var withSheet := if name in sheets then sheets else sheets[name := SelectFrameSheet(atlas, [])];
    var sheet := withSheet[name];
    withSheet[name := sheet.(frames := sheet.frames + [p.rect])]
  }

  /** A step appends the frame's rectangle to its own sheet only. */
  lemma SteppedFrames(sheets: map<string, SpriteSheet>, atlas: Texture, p: Placed, n: string)
    requires AllSelectFrames(sheets)
    ensures FramesOf(Stepped(sheets, atlas, p), n) == FramesOf(sheets, n) + (if n == p.sheet then [p.rect] else [])
  {
  }

  /** The grouping does the steps one frame after another. */
  lemma GroupedSteps(sheets: map<string, SpriteSheet>, atlas: Texture, placed: seq<Placed>)
    requires AllSelectFrames(sheets) && |placed| > 0
    ensures Grouped(sheets, atlas, placed) == Grouped(Stepped(sheets, atlas, placed[0]), atlas, placed[1..])
  {
  }

  /** Grouping onto sheets that all select frames adds every frame; the
      sheets still all select frames. */
  lemma {:induction false} GroupingSucceeds(sheets: map<string, SpriteSheet>, atlas: Texture, placed: seq<Placed>)
    requires AllSelectFrames(sheets)
    ensures Grouped(sheets, atlas, placed).complete
    ensures AllSelectFrames(Grouped(sheets, atlas, placed).sheets)
    decreases |placed|
  {
    if |placed| > 0 {
      GroupedSteps(sheets, atlas, placed);
      GroupingSucceeds(Stepped(sheets, atlas, placed[0]), atlas, placed[1..]);
    }
  }

  /** A sheet is made only for a name that some frame gives. */
  lemma {:induction false} GroupingNames(sheets: map<string, SpriteSheet>, atlas: Texture, placed: seq<Placed>)
    requires AllSelectFrames(sheets)
    ensures Grouped(sheets, atlas, placed).sheets.Keys == sheets.Keys + NamesOf(placed)
    decreases |placed|
  {
    if |placed| > 0 {
      GroupedSteps(sheets, atlas, placed);
      GroupingNames(Stepped(sheets, atlas, placed[0]), atlas, placed[1..]);
    }
  }

  /** Each sheet holds its old frames followed by the rectangles of its
      frames, one per frame, in file order. */
  lemma {:induction false} GroupingCollectsFrames(sheets: map<string, SpriteSheet>, atlas: Texture, placed: seq<Placed>)
    requires AllSelectFrames(sheets)
    ensures var r := Grouped(sheets, atlas, placed).sheets;
            forall n :: n in r ==> FramesOf(r, n) == FramesOf(sheets, n) + FramesNamed(placed, n)
    decreases |placed|
  {
    if |placed| > 0 {
      var next := Stepped(sheets, atlas, placed[0]);
      GroupedSteps(sheets, atlas, placed);
      GroupingCollectsFrames(next, atlas, placed[1..]);
      var r := Grouped(next, atlas, placed[1..]).sheets;
      forall n | n in r
        ensures FramesOf(r, n) == FramesOf(sheets, n) + FramesNamed(placed, n)
      {
        FramesAfterStep(sheets, next, r, atlas, placed, n);
      }
    }
  }

  /** One step of `GroupingCollectsFrames`, for the sheet `n`. */
  lemma FramesAfterStep(sheets: map<string, SpriteSheet>, next: map<string, SpriteSheet>,
                        r: map<string, SpriteSheet>, atlas: Texture, placed: seq<Placed>, n: string)
    requires AllSelectFrames(sheets) && |placed| > 0
    requires next == Stepped(sheets, atlas, placed[0])
    requires FramesOf(r, n) == FramesOf(next, n) + FramesNamed(placed[1..], n)
    ensures FramesOf(r, n) == FramesOf(sheets, n) + FramesNamed(placed, n)
  {
    var here := if placed[0].sheet == n then [placed[0].rect] else [];
    var later := FramesNamed(placed[1..], n);
    calc {
      FramesOf(r, n);
      FramesOf(next, n) + later;
      { SteppedFrames(sheets, atlas, placed[0], n); }
      (FramesOf(sheets, n) + here) + later;
      { AppendIsAssociative(FramesOf(sheets, n), here, later); }
      FramesOf(sheets, n) + (here + later);
      { assert FramesNamed(placed, n) == here + later; }
      FramesOf(sheets, n) + FramesNamed(placed, n);
    }
  }

  /** Appending is associative. */
  lemma AppendIsAssociative(a: seq<Rectangle>, b: seq<Rectangle>, c: seq<Rectangle>)
    ensures (a + b) + c == a + (b + c)
  {
  }

  /** A sheet that existed keeps its texture, and a new one uses the
      atlas. */
  lemma {:induction false} GroupingTextures(sheets: map<string, SpriteSheet>, atlas: Texture, placed: seq<Placed>)
    requires AllSelectFrames(sheets)
    ensures var r := Grouped(sheets, atlas, placed).sheets;
            (forall n :: n in sheets ==> n in r && r[n].texture == sheets[n].texture) &&
            (forall n :: n in r && n !in sheets ==> r[n].texture == atlas)
    decreases |placed|
  {
    if |placed| > 0 {
      GroupedSteps(sheets, atlas, placed);
      GroupingTextures(Stepped(sheets, atlas, placed[0]), atlas, placed[1..]);
    }
  }

  /** A frame whose sheet is a generated one stops the grouping there. */
  lemma GroupingFailsOnGeneratedSheet(sheets: map<string, SpriteSheet>, atlas: Texture, placed: seq<Placed>)
    requires |placed| > 0
    requires placed[0].sheet in sheets && sheets[placed[0].sheet].GeneratedSheet?
    ensures !Grouped(sheets, atlas, placed).complete
    ensures Grouped(sheets, atlas, placed).sheets == sheets
  {
  }

  // ---------------------------------------------------------------------
  // Sounds and drawn textures

  /** A framework object the assets own and dispose: a decoded sound or a
      drawing canvas. */
  class Handle {
    var disposed: bool

    constructor ()
      ensures !disposed
    {
      disposed := false;
    }

    /** `Dispose()`. */
    method Dispose()
      modifies this
      ensures disposed
    {
      disposed := true;
    }
  }

  /** Whether a sound instance plays. */
  datatype PlayState = Stopped | Playing | Paused

  /** `SoundEffectSettings`. */
  datatype SoundEffectSettings = SoundEffectSettings(pan: real, pitch: real, volume: real,
                                                     loop: bool, cached: bool)

  /** A `SoundEffectInstance`: settings, play state, and how many times it
      has started from the beginning. */
  class SoundInstance {
    const effect: Handle
    var pan: real
    var pitch: real
    var volume: real
    var isLooped: bool
    var state: PlayState
    var starts: nat
    var disposed: bool

    /** `effect.CreateInstance()`: stopped, centred, at full volume. */
    constructor (e: Handle)
      ensures effect == e && pan == 0.0 && pitch == 0.0 && volume == 1.0 && !isLooped
      ensures state == Stopped && starts == 0 && !disposed
    {
      effect := e;
      pan := 0.0;
      pitch := 0.0;
      volume := 1.0;
      isLooped := false;
      state := Stopped;
      starts := 0;
      disposed := false;
    }

    /** `Stop()`. */
    method Stop()
      modifies this`state
      ensures state == Stopped
    {
      state := Stopped;
    }

    /** `Play()`: a stopped sound starts from the beginning, a paused one
        resumes, a playing one plays on. */
    method Play()
      modifies this`state, this`starts
      ensures state == Playing
      ensures starts == if old(state) == Stopped then old(starts) + 1 else old(starts)
    {
      if state == Stopped {
        starts := starts + 1;
      }
      state := Playing;
    }

    /** `Dispose()`. */
    method Dispose()
      modifies this`disposed
      ensures disposed
    {
      disposed := true;
    }
  }

  /** A canvas of the given size, drawn by a caller's callback. */
  class Canvas {
    const width: int
    const height: int
    const texture: Texture
    var disposed: bool

    constructor (w: int, h: int, t: Texture)
      ensures width == w && height == h && texture == t && !disposed
    {
      width := w;
      height := h;
      texture := t;
      disposed := false;
    }

    /** `Dispose()`. */
    method Dispose()
      modifies this
      ensures disposed
    {
      disposed := true;
    }
  }

  /** Disposes every handle of a dictionary. */
  method DisposeHandles(d: map<string, Handle>)
    modifies set k | k in d :: d[k]
    ensures forall k :: k in d ==> d[k].disposed
  {
    var keys := d.Keys;
    while keys != {}
      invariant keys <= d.Keys
      invariant forall k :: k in d.Keys - keys ==> d[k].disposed
      decreases |keys|
    {
      var k :| k in keys;
      d[k].Dispose();
      keys := keys - {k};
    }
  }

  /** Disposes every sound instance of a dictionary. */
  method DisposeInstances(d: map<string, SoundInstance>)
    modifies set k | k in d :: d[k]
    ensures forall k :: k in d ==> d[k].disposed
  {
    var keys := d.Keys;
    while keys != {}
      invariant keys <= d.Keys
      invariant forall k :: k in d.Keys - keys ==> d[k].disposed
      decreases |keys|
    {
      var k :| k in keys;
      d[k].Dispose();
      keys := keys - {k};
    }
  }

  /** Disposes every canvas of a dictionary. */
  method DisposeCanvases(d: map<string, Canvas>)
    modifies set k | k in d :: d[k]
    ensures forall k :: k in d ==> d[k].disposed
  {
    var keys := d.Keys;
    while keys != {}
      invariant keys <= d.Keys
      invariant forall k :: k in d.Keys - keys ==> d[k].disposed
      decreases |keys|
    {
      var k :| k in keys;
      d[k].Dispose();
      keys := keys - {k};
    }
  }

  // ---------------------------------------------------------------------
  // The assets

  /** `LdResourceAssets`. */
  class Assets {
    var dynamicTextures: map<string, Canvas>
    var sheets: map<string, SpriteSheet>
    var soundInstances: map<string, SoundInstance>
    var soundEffects: map<string, Handle>

    /** `new LdResourceAssets()`: every dictionary empty. */
    constructor ()
      ensures dynamicTextures == map[] && sheets == map[] && soundInstances == map[] && soundEffects == map[]
    {
      dynamicTextures := map[];
      sheets := map[];
      soundInstances := map[];
      soundEffects := map[];
    }

    /** The atlas load event, given the atlas texture and its frame list
        (`None` when the sheet data does not deserialize). `ok` is false
        when a frame names a generated sheet. */
    method LoadAtlas(atlas: Texture, sheetInfo: Option<seq<Frame>>) returns (ok: bool)
      modifies this`sheets
      ensures sheetInfo.None? ==> ok && sheets == old(sheets)
      ensures sheetInfo.Some? ==> Grouping(sheets, ok) == Grouped(old(sheets), atlas, Placement(sheetInfo.value))
    {
      ok := true;
      if sheetInfo.None? {
        return;
      }
      var frames := sheetInfo.value;
      ghost var placed := Placement(frames);
      for i := 0 to |frames|
        invariant Grouped(old(sheets), atlas, placed) == Grouped(sheets, atlas, placed[i..])
      {
        assert placed[i..][1..] == placed[i + 1..];
        var name := SheetName(frames[i].key);
        if name !in sheets {
          sheets := sheets[name := SelectFrameSheet(atlas, [])];
        }
        var sheet := sheets[name];
        if !sheet.SelectFrameSheet? {
          return false;
        }
        sheets := sheets[name := sheet.(frames := sheet.frames + [frames[i].rect])];
      }
      assert placed[|frames|..] == [];
    }

    /** `AddSound(resourceFiles, path)`, given the sound decoded from the
        file: instance and sound are stored under the same key, replacing
        any earlier pair. */
    method AddSound(path: string, effect: Handle) returns (instance: SoundInstance)
      modifies this`soundInstances, this`soundEffects
      ensures fresh(instance) && instance.effect == effect && instance.state == Stopped
      ensures soundInstances == old(soundInstances)[path := instance]
      ensures soundEffects == old(soundEffects)[path := effect]
    {
      instance := new SoundInstance(effect);
      soundInstances := soundInstances[path := instance];
      soundEffects := soundEffects[path := effect];
    }

    /** `PlaySound(key, settings)`: a known sound takes the settings and
        plays, stopped first when the settings say cached; an unknown key
        changes nothing and yields the warning that is logged. */
    method PlaySound(key: string, settings: SoundEffectSettings) returns (warning: Option<string>)
      modifies if key in soundInstances then {soundInstances[key]} else {}
      ensures key !in soundInstances ==> warning == Some("Could not find sound `" + key + "`")
      ensures key in soundInstances ==>
                var s := soundInstances[key];
                warning == None && s.pan == settings.pan && s.pitch == settings.pitch &&
                s.volume == settings.volume && s.isLooped == settings.loop && s.state == Playing &&
                s.starts == (if settings.cached || old(s.state) == Stopped then old(s.starts) + 1 else old(s.starts)) &&
                s.disposed == old(s.disposed)
    {
      if key in soundInstances {
        var sound := soundInstances[key];
        if settings.cached {
          sound.Stop();
        }
        sound.pan := settings.pan;
        sound.pitch := settings.pitch;
        sound.volume := settings.volume;
        sound.isLooped := settings.loop;
        sound.Play();
        warning := None;
      } else {
        warning := Some("Could not find sound `" + key + "`");
      }
    }

    /** `AddDynamicSpriteSheet(key, size, generateTexture, generateSpriteSheet)`,
        given the texture of the new canvas and the sheet the caller makes
        from it: a canvas under the same key is disposed and replaced. The
        sheet is added only when its key is new; otherwise the add fails
        (`ok` false) after the canvas has been replaced. */
    method AddDynamicSpriteSheet(key: string, width: int, height: int, texture: Texture, sheet: SpriteSheet)
      returns (ok: bool, canvas: Canvas)
      modifies this`dynamicTextures, this`sheets
      modifies if key in dynamicTextures then {dynamicTextures[key]} else {}
      ensures key in old(dynamicTextures) ==> old(dynamicTextures)[key].disposed
      ensures fresh(canvas) && canvas.width == width && canvas.height == height && canvas.texture == texture
      ensures dynamicTextures == old(dynamicTextures)[key := canvas]
      ensures ok <==> key !in old(sheets)
      ensures ok ==> sheets == old(sheets)[key := sheet]
      ensures !ok ==> sheets == old(sheets)
    {
      if key in dynamicTextures {
        dynamicTextures[key].Dispose();
        dynamicTextures := dynamicTextures - {key};
      }
      canvas := new Canvas(width, height, texture);
      dynamicTextures := dynamicTextures[key := canvas];
      if key in sheets {
        return false, canvas;
      }
      sheets := sheets[key := sheet];
      ok := true;
    }

    /** The evidently intended `AddDynamicSpriteSheet`: the sheet under the
        key is replaced along with its canvas, so a texture can be drawn
        again under the same key. */
    method ReplaceDynamicSpriteSheet(key: string, width: int, height: int, texture: Texture, sheet: SpriteSheet)
      returns (canvas: Canvas)
      modifies this`dynamicTextures, this`sheets
      modifies if key in dynamicTextures then {dynamicTextures[key]} else {}
      ensures key in old(dynamicTextures) ==> old(dynamicTextures)[key].disposed
      ensures fresh(canvas) && canvas.width == width && canvas.height == height && canvas.texture == texture
      ensures dynamicTextures == old(dynamicTextures)[key := canvas]
      ensures sheets == old(sheets)[key := sheet]
    {
      if key in dynamicTextures {
        dynamicTextures[key].Dispose();
        dynamicTextures := dynamicTextures - {key};
      }
      canvas := new Canvas(width, height, texture);
      dynamicTextures := dynamicTextures[key := canvas];
      sheets := sheets[key := sheet];
    }

    /** `Unload()`: every canvas, sound and sound instance is disposed and
        the three dictionaries are emptied. The sheets stay. */
    method Unload()
      modifies this`dynamicTextures, this`soundEffects, this`soundInstances
      modifies set k | k in dynamicTextures :: dynamicTextures[k]
      modifies set k | k in soundEffects :: soundEffects[k]
      modifies set k | k in soundInstances :: soundInstances[k]
      ensures forall k :: k in old(dynamicTextures) ==> old(dynamicTextures)[k].disposed
      ensures forall k :: k in old(soundEffects) ==> old(soundEffects)[k].disposed
      ensures forall k :: k in old(soundInstances) ==> old(soundInstances)[k].disposed
      ensures dynamicTextures == map[] && soundEffects == map[] && soundInstances == map[]
      ensures sheets == old(sheets)
    {
      DisposeCanvases(dynamicTextures);
      DisposeHandles(soundEffects);
      DisposeInstances(soundInstances);
      dynamicTextures := map[];
      soundEffects := map[];
      soundInstances := map[];
    }
  }

  /** A second sheet drawn under the same key is refused, although the code
      disposes and replaces the canvas under that key to allow it. */
  method RedrawingASheetFails(assets: Assets, key: string, texture: Texture, sheet: SpriteSheet)
    returns (first: bool, second: bool)
    modifies assets, if key in assets.dynamicTextures then {assets.dynamicTextures[key]} else {}
    ensures key !in old(assets.sheets) ==> first && !second
  {
    var c;
    first, c := assets.AddDynamicSpriteSheet(key, 1, 1, texture, sheet);
    second, c := assets.AddDynamicSpriteSheet(key, 1, 1, texture, sheet);
  }

  /** Redrawing under the same key with the intended replacement keeps the
      latest sheet. */
  method RedrawingASheetReplaces(assets: Assets, key: string, texture: Texture, first: SpriteSheet, second: SpriteSheet)
    modifies assets, if key in assets.dynamicTextures then {assets.dynamicTextures[key]} else {}
    ensures assets.sheets == old(assets.sheets)[key := second]
  {
    var c := assets.ReplaceDynamicSpriteSheet(key, 1, 1, texture, first);
    c := assets.ReplaceDynamicSpriteSheet(key, 1, 1, texture, second);
  }

  /** The static `instanceImpl` behind `LdResourceAssets.Instance`. */
  class Registry {
    var instanceImpl: Assets?

    constructor ()
      ensures instanceImpl == null
    {
      instanceImpl := null;
    }

    /** `Instance`: made on first use, the same object afterwards. */
    method Instance() returns (r: Assets)
      modifies this
      ensures old(instanceImpl) != null ==> r == old(instanceImpl)
      ensures old(instanceImpl) == null ==>
                fresh(r) && r.dynamicTextures == map[] && r.sheets == map[] &&
                r.soundInstances == map[] && r.soundEffects == map[]
      ensures instanceImpl == r
    {
      if instanceImpl == null {
        instanceImpl := new Assets();
      }
      r := instanceImpl;
    }

    /** `Reset()`: the instance (made now if there was none) is unloaded and
        forgotten, so the next `Instance` makes a fresh one. */
    method Reset() returns (unloaded: Assets)
      modifies this
      modifies if instanceImpl != null then {instanceImpl} else {}
      modifies if instanceImpl != null then (set k | k in instanceImpl.dynamicTextures :: instanceImpl.dynamicTextures[k]) else {}
      modifies if instanceImpl != null then (set k | k in instanceImpl.soundEffects :: instanceImpl.soundEffects[k]) else {}
      modifies if instanceImpl != null then (set k | k in instanceImpl.soundInstances :: instanceImpl.soundInstances[k]) else {}
      ensures instanceImpl == null
      ensures unloaded.dynamicTextures == map[] && unloaded.soundEffects == map[] && unloaded.soundInstances == map[]
      ensures old(instanceImpl) != null ==> unloaded == old(instanceImpl)
    {
      unloaded := Instance();
      unloaded.Unload();
      instanceImpl := null;
    }
  }
}
