/** `ObstacleRenderer.cs`: the outline of the walls. Every obstacle gets a
    ring of 32 line segments just outside its rim, and a segment whose both
    endpoints lie strictly inside some obstacle is removed, so that
    overlapping walls show one outline. */
module ObstacleRenderers {
  import opened Geometry
  import opened Entities

  /** `LineSegment(A, B)`. */
  datatype LineSegment = LineSegment(a: Vec2, b: Vec2)

  /** The number of segments per ring: the angle runs from 0 in steps of
      `PI / 16` while it is below `2 PI`. */
  const RingSteps: nat := 32

  /** The angle of step `k` of the ring loop. */
  function RingAngle(k: int): real {
    (k as real) * (Pi / 16.0)
  }

  /** The point at `angle` on the circle of radius `Radius + 2` round `o`. */
  function RingPoint(m: MathLib, o: Obstacle, angle: real): Vec2 {
    Add(Polar(m, o.radius + 2.0, angle), o.position)
  }

  /** Segment `k` of the ring round `o`. */
  function RingSegment(m: MathLib, o: Obstacle, k: int): LineSegment {
    LineSegment(RingPoint(m, o, RingAngle(k)), RingPoint(m, o, RingAngle(k) + Pi / 16.0))
  }

  /** The first `n` segments of the ring round `o`. */
  function RingFirst(m: MathLib, o: Obstacle, n: nat): (r: seq<LineSegment>)
    ensures |r| == n
    ensures forall k :: 0 <= k < n ==> r[k] == RingSegment(m, o, k)
  {
    if n == 0 then [] else RingFirst(m, o, n - 1) + [RingSegment(m, o, n - 1)]
  }

  /** The rings of the first `n` obstacles, in entity order. */
  function Rings(m: MathLib, obstacles: seq<Obstacle>, n: nat): (r: seq<LineSegment>)
    requires n <= |obstacles|
    ensures |r| == n * RingSteps
    ensures forall i, k :: 0 <= i < n && 0 <= k < RingSteps ==>
              r[i * RingSteps + k] == RingSegment(m, obstacles[i], k)
  {
    if n == 0 then []
    else
      Rings(m, obstacles, n - 1) + RingFirst(m, obstacles[n - 1], RingSteps)
  }

  /** `o` hides `line` when both endpoints lie strictly inside it. */
  predicate Hidden(o: Obstacle, line: LineSegment) {
    Within(o.position, line.a, o.radius) && Within(o.position, line.b, o.radius)
  }

  /** The segments of `lines` that `o` hides, in order: `linesToRemove`. */
  function HiddenBy(o: Obstacle, lines: seq<LineSegment>): (r: seq<LineSegment>)
    ensures forall l :: l in r <==> l in lines && Hidden(o, l)
  {
    if |lines| == 0 then []
    else if Hidden(o, lines[0]) then [lines[0]] + HiddenBy(o, lines[1..])
    else HiddenBy(o, lines[1..])
  }

  /** The segments of `lines` that `o` does not hide, in order. */
  function ShownPast(o: Obstacle, lines: seq<LineSegment>): (r: seq<LineSegment>)
    ensures |r| <= |lines|
    ensures forall l :: l in r <==> l in lines && !Hidden(o, l)
  {
    if |lines| == 0 then []
    else if Hidden(o, lines[0]) then ShownPast(o, lines[1..])
    else [lines[0]] + ShownPast(o, lines[1..])
  }

  /** The segments that survive the first `n` obstacles' removal passes. */
  function ShownPastFirst(obstacles: seq<Obstacle>, n: nat, lines: seq<LineSegment>): seq<LineSegment>
    requires n <= |obstacles|
  {
    if n == 0 then lines else ShownPast(obstacles[n - 1], ShownPastFirst(obstacles, n - 1, lines))
  }

  /** The outline of `obstacles`: their rings, less every segment some
      obstacle hides. */
  function Outline(m: MathLib, obstacles: seq<Obstacle>): seq<LineSegment> {
    ShownPastFirst(obstacles, |obstacles|, Rings(m, obstacles, |obstacles|))
  }

  /** `List.Remove`: the first occurrence of `x` goes, if there is one. */
  function RemoveFirst(s: seq<LineSegment>, x: LineSegment): (r: seq<LineSegment>)
    ensures x !in s ==> r == s
    ensures x in s ==> |r| == |s| - 1
  {
    if |s| == 0 then s
    else if s[0] == x then s[1..]
    else [s[0]] + RemoveFirst(s[1..], x)
  }

  /** `Remove` called for each element of `rs` in turn. */
  function RemoveEach(s: seq<LineSegment>, rs: seq<LineSegment>): seq<LineSegment>
    decreases |rs|
  {
    if |rs| == 0 then s else RemoveEach(RemoveFirst(s, rs[0]), rs[1..])
  }

  /** A segment `o` does not hide stays in front of removals of segments
      it does hide. */
  lemma {:induction false} RemoveEachPastShown(o: Obstacle, l: LineSegment, s: seq<LineSegment>, rs: seq<LineSegment>)
    requires !Hidden(o, l) && forall x :: x in rs ==> Hidden(o, x)
    ensures RemoveEach([l] + s, rs) == [l] + RemoveEach(s, rs)
    decreases |rs|
  {
    if |rs| > 0 {
      assert rs[0] in rs;
      assert ([l] + s)[0] == l && ([l] + s)[1..] == s;
      assert RemoveFirst([l] + s, rs[0]) == [l] + RemoveFirst(s, rs[0]);
      forall x | x in rs[1..] ensures Hidden(o, x) {
        assert x in rs;
      }
      RemoveEachPastShown(o, l, RemoveFirst(s, rs[0]), rs[1..]);
    }
  }

  /** Removing, one by one, the segments `o` hides leaves exactly the
      segments it does not hide, in their order: each `Remove` finds the
      first hidden segment, because no earlier equal segment exists. */
  lemma {:induction false} RemovingHiddenLeavesShown(o: Obstacle, lines: seq<LineSegment>)
    ensures RemoveEach(lines, HiddenBy(o, lines)) == ShownPast(o, lines)
    decreases |lines|
  {
    if |lines| > 0 {
      var rest := lines[1..];
      assert lines == [lines[0]] + rest;
      RemovingHiddenLeavesShown(o, rest);
      if Hidden(o, lines[0]) {
        assert HiddenBy(o, lines) == [lines[0]] + HiddenBy(o, rest);
        assert RemoveFirst(lines, lines[0]) == rest;
      } else {
        RemoveEachPastShown(o, lines[0], rest, HiddenBy(o, rest));
      }
    }
  }

  /** A segment survives the removal passes exactly when it is one of the
      rings' segments and no obstacle hides it. */
  lemma {:induction false} ShownPastFirstMembers(obstacles: seq<Obstacle>, n: nat, lines: seq<LineSegment>, l: LineSegment)
    requires n <= |obstacles|
    ensures l in ShownPastFirst(obstacles, n, lines) <==>
            l in lines && forall i :: 0 <= i < n ==> !Hidden(obstacles[i], l)
    decreases n
  {
    if n > 0 {
      ShownPastFirstMembers(obstacles, n - 1, lines, l);
    }
  }

  /** The outline holds exactly the ring segments that no obstacle hides;
      in particular a segment with only one endpoint inside an obstacle is
      not removed for that obstacle. */
  lemma OutlineMembers(m: MathLib, obstacles: seq<Obstacle>, l: LineSegment)
    ensures l in Outline(m, obstacles) <==>
            l in Rings(m, obstacles, |obstacles|) && forall i :: 0 <= i < |obstacles| ==> !Hidden(obstacles[i], l)
  {
    ShownPastFirstMembers(obstacles, |obstacles|, Rings(m, obstacles, |obstacles|), l);
  }

  /** A ring point lies `Radius + 2` from its obstacle's centre. */
  lemma RingPointDistance(m: MathLib, o: Obstacle, angle: real)
    requires TrigSound(m)
    ensures LengthSq(Sub(o.position, RingPoint(m, o, angle))) == Sq(o.radius + 2.0)
  {
    var p := Polar(m, o.radius + 2.0, angle);
    assert Sub(o.position, RingPoint(m, o, angle)) == Neg(p);
    LengthSqNeg(p);
    PolarLength(m, o.radius + 2.0, angle);
  }

  /** No segment of an obstacle's own ring is hidden by that obstacle: its
      endpoints lie 2 outside the rim. */
  lemma OwnRingIsShown(m: MathLib, o: Obstacle, k: int)
    requires TrigSound(m)
    ensures !Hidden(o, RingSegment(m, o, k))
  {
    var l := RingSegment(m, o, k);
    RingPointDistance(m, o, RingAngle(k));
    if 0.0 < o.radius {
      SquareStrictlyMonotone(o.radius, o.radius + 2.0);
    }
  }

  class ObstacleRenderer {
    var flaggedForDestroy: bool
    var position: Vec2
    var depth: int
    /** `_lines`, in order. */
    var lines: seq<LineSegment>

    /** `new ObstacleRenderer(world)`, for the world's obstacles in entity
        order: draw depth `Middle - 10`, and the outline of the obstacles. */
    constructor (m: MathLib, obstacles: seq<Obstacle>)
      ensures lines == Outline(m, obstacles)
      ensures depth == DepthMiddle - 10 && position == Zero && !flaggedForDestroy
    {
      flaggedForDestroy := false;
      position := Zero;
      depth := DepthMiddle - 10;
      var rings := BuildRings(m, obstacles);
      var all := RemoveHidden(obstacles, rings);
      lines := all;
    }

    /** `Update` has an empty body. */
    method Update(dt: real)
    {
    }

    /** `EditorHitTest` fails always. */
    function EditorHitTest(mouse: Vec2): (hit: bool)
      ensures !hit
    {
      false
    }
  }

  /** The first loop of the constructor: a ring for every obstacle. */
  method BuildRings(m: MathLib, obstacles: seq<Obstacle>) returns (all: seq<LineSegment>)
    ensures all == Rings(m, obstacles, |obstacles|)
  {
    all := [];
    var i := 0;
    while i < |obstacles|
      invariant 0 <= i <= |obstacles|
      invariant all == Rings(m, obstacles, i)
    {
      var k := 0;
      var ring := [];
      while k < RingSteps
        invariant 0 <= k <= RingSteps
        invariant ring == RingFirst(m, obstacles[i], k)
      {
        var angle := RingAngle(k);
        ring := ring + [LineSegment(RingPoint(m, obstacles[i], angle), RingPoint(m, obstacles[i], angle + Pi / 16.0))];
        k := k + 1;
      }
      all := all + ring;
      i := i + 1;
    }
  }

  /** The second loop of the constructor: for every obstacle in turn, the
      segments it hides are collected and then removed one by one. */
  method RemoveHidden(obstacles: seq<Obstacle>, rings: seq<LineSegment>) returns (all: seq<LineSegment>)
    ensures all == ShownPastFirst(obstacles, |obstacles|, rings)
  {
    all := rings;
    var i := 0;
    while i < |obstacles|
      invariant 0 <= i <= |obstacles|
      invariant all == ShownPastFirst(obstacles, i, rings)
    {
      var toRemove := LinesToRemove(obstacles[i], all);
      var kept := RemoveLines(all, toRemove);
      RemovingHiddenLeavesShown(obstacles[i], all);
      all := kept;
      i := i + 1;
    }
  }

  /** `_lines.Remove(lineToRemove)` for each segment of `toRemove` in turn. */
  method RemoveLines(lines: seq<LineSegment>, toRemove: seq<LineSegment>) returns (kept: seq<LineSegment>)
    ensures kept == RemoveEach(lines, toRemove)
  {
    kept := lines;
    var j := 0;
    assert toRemove[0..] == toRemove;
    while j < |toRemove|
      invariant 0 <= j <= |toRemove|
      invariant RemoveEach(kept, toRemove[j..]) == RemoveEach(lines, toRemove)
    {
      assert toRemove[j..][0] == toRemove[j] && toRemove[j..][1..] == toRemove[j + 1..];
      kept := RemoveFirst(kept, toRemove[j]);
      j := j + 1;
    }
  }

  /** `HiddenBy` one segment further along. */
  lemma {:induction false} HiddenBySnoc(o: Obstacle, lines: seq<LineSegment>, l: LineSegment)
    ensures HiddenBy(o, lines + [l]) == HiddenBy(o, lines) + (if Hidden(o, l) then [l] else [])
    decreases |lines|
  {
    if |lines| > 0 {
      assert (lines + [l])[1..] == lines[1..] + [l];
      HiddenBySnoc(o, lines[1..], l);
    }
  }

  /** The inner loop of the removal pass: the segments `o` hides, in order. */
  method LinesToRemove(o: Obstacle, lines: seq<LineSegment>) returns (r: seq<LineSegment>)
    ensures r == HiddenBy(o, lines)
  {
    r := [];
    var j := 0;
    while j < |lines|
      invariant 0 <= j <= |lines|
      invariant r == HiddenBy(o, lines[..j])
    {
      assert lines[..j + 1] == lines[..j] + [lines[j]];
      HiddenBySnoc(o, lines[..j], lines[j]);
      if Hidden(o, lines[j]) {
        r := r + [lines[j]];
      }
      j := j + 1;
    }
    assert lines[..|lines|] == lines;
  }
}
