/** The inverse-kinematic chain and the goal's arms (`InverseKinematicChain`,
    `InverseKinematicLinkPair`, `InverseKinematicLink` and `Arm` in
    `Goal.cs`). A link node is named by its index in the chain's
    `positions`: the head is node 0 and every `AddLink` allocates the next
    index, so a node of another chain is an index this chain does not use. */
module Kinematics {
  import opened Geometry

  /** `InverseKinematicLinkPair(A, B, Distance)`, the nodes as indices. */
  datatype LinkPair = LinkPair(a: nat, b: nat, distance: real)

  /** `LinkPair.Contains(link)`: the link is one of the two endpoints. */
  predicate Contains(c: LinkPair, link: int) {
    c.a == link || c.b == link
  }

  /** Every connection names nodes that exist. */
  predicate InBounds(cs: seq<LinkPair>, n: nat) {
    forall i :: 0 <= i < |cs| ==> cs[i].a < n && cs[i].b < n
  }

  /** The shape `AddLink` builds from a fresh chain: connection `i` joins
      node `i` to node `i + 1`, so the connections run from the head to
      the tail, which is the last node. */
  predicate IsPath(cs: seq<LinkPair>, n: nat) {
    n == |cs| + 1 && forall i :: 0 <= i < |cs| ==> cs[i].a == i && cs[i].b == i + 1
  }

  predicate NonNegativeDistances(cs: seq<LinkPair>) {
    forall i :: 0 <= i < |cs| ==> 0.0 <= cs[i].distance
  }

  /** The body shared by `SnapA` and `SnapB`: when `moving` is strictly
      farther than `distance` from `fixed`, it is put on the line between
      them at `distance` from `fixed`; otherwise it stays. */
  function Snap(m: MathLib, fixed: Vec2, moving: Vec2, distance: real): Vec2 {
    var displacement := Sub(fixed, moving);
    if LongerThan(displacement, distance) then
      Sub(fixed, Scale(Normalized(m, displacement), distance))
    else
      moving
  }

  /** A snap moves its endpoint only when the link is over-stretched and
      then leaves the link at exactly its distance; a slack link does not
      move. The guard rules out normalising the zero vector. */
  lemma SnapWithin(m: MathLib, fixed: Vec2, moving: Vec2, distance: real)
    requires SqrtSound(m) && 0.0 <= distance
    ensures NoLongerThan(Sub(fixed, Snap(m, fixed, moving, distance)), distance)
    ensures !LongerThan(Sub(fixed, moving), distance) ==> Snap(m, fixed, moving, distance) == moving
    ensures LongerThan(Sub(fixed, moving), distance) ==>
              Sub(fixed, moving) != Zero &&
              LengthSq(Sub(fixed, Snap(m, fixed, moving, distance))) == Sq(distance)
  {
    if LongerThan(Sub(fixed, moving), distance) {
      SnapStretched(m, fixed, moving, distance);
    } else {
      NoLongerIsNotLonger(Sub(fixed, moving), distance);
    }
  }

  /** The over-stretched case of `SnapWithin`. */
  lemma SnapStretched(m: MathLib, fixed: Vec2, moving: Vec2, distance: real)
    requires SqrtSound(m) && 0.0 <= distance && LongerThan(Sub(fixed, moving), distance)
    ensures Sub(fixed, moving) != Zero
    ensures var r := Snap(m, fixed, moving, distance);
            NoLongerThan(Sub(fixed, r), distance) && LengthSq(Sub(fixed, r)) == Sq(distance)
  {
    var displacement := Sub(fixed, moving);
    SquareNonNegative(distance);
    LengthSqNonNegative(displacement);
    var s := Scale(Normalized(m, displacement), distance);
    ScaledNormalizedLength(m, displacement, distance);
    SubOfAdd(fixed, s);
    ExactLengthIsNoLonger(s, distance);
  }

  /** `SnapA(connection)`: A is pulled towards B. */
  function SnappedA(m: MathLib, p: seq<Vec2>, c: LinkPair): seq<Vec2>
    requires c.a < |p| && c.b < |p|
  {
    p[c.a := Snap(m, p[c.b], p[c.a], c.distance)]
  }

  /** `SnapB(connection)`: B is pulled towards A. */
  function SnappedB(m: MathLib, p: seq<Vec2>, c: LinkPair): seq<Vec2>
    requires c.a < |p| && c.b < |p|
  {
    p[c.b := Snap(m, p[c.a], p[c.b], c.distance)]
  }

  /** The forward pass of `PutHeadAt`: `SnapB` on connections `i`, `i + 1`,
      ... in list order. */
  function ForwardPass(m: MathLib, p: seq<Vec2>, cs: seq<LinkPair>, i: nat): (r: seq<Vec2>)
    requires InBounds(cs, |p|) && i <= |cs|
    ensures |r| == |p|
    decreases |cs| - i
  {
    if i == |cs| then p else ForwardPass(m, SnappedB(m, p, cs[i]), cs, i + 1)
  }

  /** The backward pass of `PutHeadAt`: `SnapA` on connections `i - 1`,
      `i - 2`, ..., 0. */
  function BackwardPass(m: MathLib, p: seq<Vec2>, cs: seq<LinkPair>, i: nat): (r: seq<Vec2>)
    requires InBounds(cs, |p|) && i <= |cs|
    ensures |r| == |p|
    decreases i
  {
    if i == 0 then p else BackwardPass(m, SnappedA(m, p, cs[i - 1]), cs, i - 1)
  }

  /** `PutHeadAt(root, target)` on positions `p`: the head goes to the
      target, the forward pass runs, the tail goes to the root, the
      backward pass runs. */
  function HeadPutAt(m: MathLib, p: seq<Vec2>, cs: seq<LinkPair>, head: nat, tail: nat,
                     root: Vec2, target: Vec2): seq<Vec2>
    requires InBounds(cs, |p|) && head < |p| && tail < |p|
  {
    BackwardPass(m, ForwardPass(m, p[head := target], cs, 0)[tail := root], cs, |cs|)
  }

  /** Connection `c` is no longer than its rest distance. */
  predicate LinkWithin(p: seq<Vec2>, c: LinkPair)
    requires c.a < |p| && c.b < |p|
  {
    NoLongerThan(Sub(p[c.b], p[c.a]), c.distance)
  }

  predicate AllWithin(p: seq<Vec2>, cs: seq<LinkPair>)
    requires InBounds(cs, |p|)
  {
    forall i :: 0 <= i < |cs| ==> LinkWithin(p, cs[i])
  }

  /** On a path the backward pass from `i` only moves nodes before `i`:
      it moves A endpoints only, and the nodes it reaches lie nearer the
      head. */
  lemma {:induction false} BackwardKeeps(m: MathLib, p: seq<Vec2>, cs: seq<LinkPair>, i: nat, j: nat)
    requires IsPath(cs, |p|) && i <= |cs| && i <= j < |p|
    ensures BackwardPass(m, p, cs, i)[j] == p[j]
    decreases i
  {
    if i > 0 {
      var q := SnappedA(m, p, cs[i - 1]);
      assert q[j] == p[j];
      BackwardKeeps(m, q, cs, i - 1, j);
    }
  }

  /** On a path the forward pass from `i` never moves nodes up to `i`: it
      moves B endpoints only, and those lie past `i`. */
  lemma {:induction false} ForwardKeeps(m: MathLib, p: seq<Vec2>, cs: seq<LinkPair>, i: nat, j: nat)
    requires IsPath(cs, |p|) && i <= |cs| && j <= i
    ensures ForwardPass(m, p, cs, i)[j] == p[j]
    decreases |cs| - i
  {
    if i < |cs| {
      var q := SnappedB(m, p, cs[i]);
      assert q[j] == p[j];
      ForwardKeeps(m, q, cs, i + 1, j);
    }
  }

  /** The backward pass fixes connection `i - 1` and then touches only
      nodes nearer the head, so the connections it has already fixed stay
      within their distances. */
  lemma {:induction false} BackwardWithin(m: MathLib, p: seq<Vec2>, cs: seq<LinkPair>, i: nat)
    requires SqrtSound(m) && IsPath(cs, |p|) && NonNegativeDistances(cs) && i <= |cs|
    requires forall k :: i <= k < |cs| ==> LinkWithin(p, cs[k])
    ensures AllWithin(BackwardPass(m, p, cs, i), cs)
    decreases i
  {
    if i > 0 {
      var c := cs[i - 1];
      var q := SnappedA(m, p, c);
      SnapWithin(m, p[c.b], p[c.a], c.distance);
      assert LinkWithin(q, c);
      forall k | i <= k < |cs|
        ensures LinkWithin(q, cs[k])
      {
        assert q[cs[k].a] == p[cs[k].a] && q[cs[k].b] == p[cs[k].b];
      }
      BackwardWithin(m, q, cs, i - 1);
    }
  }

  /** The last step of the backward pass snaps the head towards node 1,
      and nothing before it writes the head. */
  lemma {:induction false} BackwardHead(m: MathLib, p: seq<Vec2>, cs: seq<LinkPair>, i: nat)
    requires IsPath(cs, |p|) && 1 <= i <= |cs|
    ensures BackwardPass(m, p, cs, i)[0] ==
            Snap(m, BackwardPass(m, p, cs, i)[1], p[0], cs[0].distance)
    decreases i
  {
    var q := SnappedA(m, p, cs[i - 1]);
    if i == 1 {
      assert BackwardPass(m, p, cs, i) == q;
    } else {
      assert q[0] == p[0];
      BackwardHead(m, q, cs, i - 1);
    }
  }

  /** After `PutHeadAt` the tail is exactly at the root. */
  lemma HeadPutAtPinsTail(m: MathLib, p: seq<Vec2>, cs: seq<LinkPair>, root: Vec2, target: Vec2)
    requires IsPath(cs, |p|)
    ensures HeadPutAt(m, p, cs, 0, |cs|, root, target)[|cs|] == root
  {
    var q := ForwardPass(m, p[0 := target], cs, 0)[|cs| := root];
    BackwardKeeps(m, q, cs, |cs|, |cs|);
  }

  /** After `PutHeadAt` every connection is within its distance. */
  lemma HeadPutAtKeepsLinks(m: MathLib, p: seq<Vec2>, cs: seq<LinkPair>, root: Vec2, target: Vec2)
    requires SqrtSound(m) && IsPath(cs, |p|) && NonNegativeDistances(cs)
    ensures AllWithin(HeadPutAt(m, p, cs, 0, |cs|, root, target), cs)
  {
    var q := ForwardPass(m, p[0 := target], cs, 0)[|cs| := root];
    BackwardWithin(m, q, cs, |cs|);
  }

  /** The head ends at the target exactly when the first connection is not
      over-stretched at the moment the backward pass reaches it (node 1 is
      not moved after that); a chain without connections ends with its
      single node at the root. */
  lemma HeadPutAtHead(m: MathLib, p: seq<Vec2>, cs: seq<LinkPair>, root: Vec2, target: Vec2)
    requires SqrtSound(m) && IsPath(cs, |p|) && NonNegativeDistances(cs)
    ensures var r := HeadPutAt(m, p, cs, 0, |cs|, root, target);
            (|cs| == 0 ==> r[0] == root) &&
            (|cs| > 0 ==> (r[0] == target <==> !LongerThan(Sub(r[1], target), cs[0].distance)))
  {
    var f := ForwardPass(m, p[0 := target], cs, 0);
    var q := f[|cs| := root];
    var r := HeadPutAt(m, p, cs, 0, |cs|, root, target);
    assert r == BackwardPass(m, q, cs, |cs|);
    if |cs| > 0 {
      ForwardKeeps(m, p[0 := target], cs, 0, 0);
      assert q[0] == target;
      BackwardHead(m, q, cs, |cs|);
      SnapWithin(m, r[1], target, cs[0].distance);
    }
  }

  /** Every node is at the origin. */
  predicate AllZero(p: seq<Vec2>) {
    forall i :: 0 <= i < |p| ==> p[i] == Zero
  }

  /** `InverseKinematicChain`. `tail` always names the last node. */
  class InverseKinematicChain {
    /** `Head`: node 0, fixed for the life of the chain. */
    const head: nat := 0
    var tail: nat
    /** The `Position` of node `i`. */
    var positions: seq<Vec2>
    /** `_connections`, in insertion order. */
    var connections: seq<LinkPair>

    /** The connections form a path from the head to the tail. */
    ghost predicate Valid()
      reads this
    {
      IsPath(connections, |positions|) && tail == |connections|
    }

    /** The chain as a value. */
    function State(): Chain
      reads this
    {
      Chain(positions, connections)
    }

    /** A fresh chain is a single node that is both head and tail. */
    constructor ()
      ensures Valid() && tail == head && positions == [Zero] && connections == []
    {
      tail := 0;
      positions := [Zero];
      connections := [];
    }

    /** `AddLink(distance)`: one new connection from the old tail to a
        fresh node at the origin, which becomes the tail. No node moves. */
    method AddLink(distance: real)
      modifies this
      ensures connections == old(connections) + [LinkPair(old(tail), |old(positions)|, distance)]
      ensures positions == old(positions) + [Zero]
      ensures tail == |old(positions)|
      ensures old(Valid()) ==> Valid() && State() == Linked(old(State()), distance)
    {
      connections := connections + [LinkPair(tail, |positions|, distance)];
      tail := |positions|;
      positions := positions + [Zero];
    }

    /** `SnapA(connection)`. */
    method SnapA(m: MathLib, c: LinkPair)
      requires c.a < |positions| && c.b < |positions|
      modifies this`positions
      ensures positions == SnappedA(m, old(positions), c)
    {
      var displacement := Sub(positions[c.b], positions[c.a]);
      if LongerThan(displacement, c.distance) {
        var newDisplacement := Scale(Normalized(m, displacement), c.distance);
        positions := positions[c.a := Sub(positions[c.b], newDisplacement)];
      }
    }

    /** `SnapB(connection)`. */
    method SnapB(m: MathLib, c: LinkPair)
      requires c.a < |positions| && c.b < |positions|
      modifies this`positions
      ensures positions == SnappedB(m, old(positions), c)
    {
      var displacement := Sub(positions[c.a], positions[c.b]);
      if LongerThan(displacement, c.distance) {
        var newDisplacement := Scale(Normalized(m, displacement), c.distance);
        positions := positions[c.b := Sub(positions[c.a], newDisplacement)];
      }
    }

    /** `PutHeadAt(rootPosition, target)`: the tail ends at the root and,
        with non-negative distances, every link within its distance. */
    method PutHeadAt(m: MathLib, rootPosition: Vec2, target: Vec2)
      requires Valid()
      modifies this`positions
      ensures Valid()
      ensures positions == HeadPutAt(m, old(positions), connections, head, tail, rootPosition, target)
      ensures State() == PutHead(m, old(State()), rootPosition, target)
      ensures positions[tail] == rootPosition
      ensures SqrtSound(m) && NonNegativeDistances(connections) ==>
                AllWithin(positions, connections)
    {
      positions := positions[head := target];
      ghost var start := positions;
      var i := 0;
      while i < |connections|
        invariant 0 <= i <= |connections| && |positions| == |start|
        invariant ForwardPass(m, positions, connections, i) == ForwardPass(m, start, connections, 0)
      {
        SnapB(m, connections[i]);
        i := i + 1;
      }
      positions := positions[tail := rootPosition];
      ghost var pinned := positions;
      var index := |connections| - 1;
      while index >= 0
        invariant -1 <= index < |connections| && |positions| == |pinned|
        invariant BackwardPass(m, positions, connections, index + 1) ==
                  BackwardPass(m, pinned, connections, |connections|)
      {
        SnapA(m, connections[index]);
        index := index - 1;
      }
      HeadPutAtPinsTail(m, old(positions), connections, rootPosition, target);
      if SqrtSound(m) && NonNegativeDistances(connections) {
        HeadPutAtKeepsLinks(m, old(positions), connections, rootPosition, target);
      }
    }

    /** `PullTowards(link, target)` is unfinished in the source: it only
        logs a warning for a link in the chain, and moves nothing. */
    method PullTowards(link: int, target: Vec2)
      ensures unchanged(this)
    {
      var inChain := IsInChain(link);
      if !inChain {
        return;
      }
    }

    /** `IsInChain(link)`: some connection contains the link. */
    function IsInChain(link: int): (b: bool)
      reads this
      ensures b <==> exists i :: 0 <= i < |connections| && Contains(connections[i], link)
    {
      AnyContains(connections, link)
    }

    /** `LinksFromHeadToTail()`: the head, every connection's B in order,
        and then the tail once more. */
    function LinksFromHeadToTail(): (r: seq<nat>)
      reads this
      ensures |r| == |connections| + 2 && r[0] == head && r[|r| - 1] == tail
      ensures forall i :: 0 <= i < |connections| ==> r[i + 1] == connections[i].b
    {
      [head] + Endpoints(connections) + [tail]
    }
  }

  /** The scan of `IsInChain`. */
  function AnyContains(cs: seq<LinkPair>, link: int): (b: bool)
    ensures b <==> exists i :: 0 <= i < |cs| && Contains(cs[i], link)
  {
    if |cs| == 0 then false
    else if Contains(cs[0], link) then true
    else
      var rest := AnyContains(cs[1..], link);
      assert forall i :: 1 <= i < |cs| ==> cs[i] == cs[1..][i - 1];
      rest
  }

  /** The B endpoints of the connections, in order. */
  function Endpoints(cs: seq<LinkPair>): (r: seq<nat>)
    ensures |r| == |cs| && forall i :: 0 <= i < |cs| ==> r[i] == cs[i].b
  {
    seq(|cs|, i requires 0 <= i < |cs| => cs[i].b)
  }

  /** On a valid chain a link is in the chain exactly when it is one of
      its nodes and the chain has at least one connection; in particular a
      fresh chain's head is not "in chain". */
  lemma IsInChainOnPath(c: InverseKinematicChain, link: int)
    requires c.Valid()
    ensures c.IsInChain(link) <==> 0 < |c.connections| && 0 <= link < |c.positions|
  {
    if 0 < |c.connections| && 0 <= link < |c.positions| {
      if link < |c.connections| {
        assert Contains(c.connections[link], link);
      } else {
        assert Contains(c.connections[link - 1], link);
      }
    }
  }

  /** On a valid chain `LinksFromHeadToTail` lists every node from head to
      tail and then the tail a second time: `connections + 2` entries. */
  lemma LinksFromHeadToTailOnPath(c: InverseKinematicChain)
    requires c.Valid()
    ensures var r := c.LinksFromHeadToTail();
            |r| == |c.positions| + 1 &&
            (forall i :: 0 <= i < |c.positions| ==> r[i] == i) &&
            r[|r| - 1] == r[|r| - 2] == c.tail
  {
    var r := c.LinksFromHeadToTail();
    forall i | 0 <= i < |c.positions|
      ensures r[i] == i
    {
      if i > 0 {
        assert r[i] == c.connections[i - 1].b;
      }
    }
  }

  /** A chain's node positions and connections, as a value: what an arm
      holds of its chain. */
  datatype Chain = Chain(positions: seq<Vec2>, connections: seq<LinkPair>)

  /** The connections of `c` form a path over its nodes (so its tail is
      node `|c.connections|`). */
  predicate ChainValid(c: Chain) {
    IsPath(c.connections, |c.positions|)
  }

  /** The head position of a chain with positions `p` (node 0). */
  function HeadOf(p: seq<Vec2>): Vec2 {
    if |p| > 0 then p[0] else Zero
  }

  /** `n` nodes at the origin. */
  function Zeros(n: nat): (r: seq<Vec2>)
    ensures |r| == n && AllZero(r)
  {
    seq(n, i => Zero)
  }

  /** `AddLink(distance)` on a chain value: a new node at the origin,
      linked from the tail, becomes the tail. */
  function Linked(c: Chain, distance: real): (r: Chain)
    ensures ChainValid(c) ==> ChainValid(r)
    ensures r.positions == c.positions + [Zero]
    ensures |r.connections| == |c.connections| + 1 && r.connections[..|c.connections|] == c.connections
    ensures r.connections[|c.connections|].distance == distance
    ensures NonNegativeDistances(c.connections) && 0.0 <= distance ==> NonNegativeDistances(r.connections)
  {
    Chain(c.positions + [Zero], c.connections + [LinkPair(|c.connections|, |c.positions|, distance)])
  }

  /** `n` calls of `AddLink(distance)`. */
  function LinkedTimes(c: Chain, distance: real, n: nat): Chain
    decreases n
  {
    if n == 0 then c else Linked(LinkedTimes(c, distance, n - 1), distance)
  }

  /** A chain of `n` links of length `distance` along nodes `0 .. n`, all
      at the origin. */
  function PathChain(n: nat, distance: real): (c: Chain)
    ensures ChainValid(c) && AllZero(c.positions) && |c.connections| == n
    ensures forall i :: 0 <= i < n ==> c.connections[i].distance == distance
  {
    Chain(Zeros(n + 1), seq(n, i requires 0 <= i < n => LinkPair(i, i + 1, distance)))
  }

  /** Links added to a chain keep everything it had: its nodes keep their
      positions, its connections stay in front, and each new node starts at
      the origin behind a link of the given length. */
  lemma {:induction false} LinkedTimesShape(c: Chain, distance: real, n: nat)
    ensures var r := LinkedTimes(c, distance, n);
            r.positions == c.positions + Zeros(n) &&
            |r.connections| == |c.connections| + n &&
            r.connections[..|c.connections|] == c.connections &&
            (forall i :: |c.connections| <= i < |r.connections| ==> r.connections[i].distance == distance) &&
            (ChainValid(c) ==> ChainValid(r))
    decreases n
  {
    if n > 0 {
      LinkedTimesShape(c, distance, n - 1);
      var q := LinkedTimes(c, distance, n - 1);
      assert c.positions + Zeros(n - 1) + [Zero] == c.positions + Zeros(n);
      assert q.connections + [LinkPair(|q.connections|, |q.positions|, distance)] ==
             LinkedTimes(c, distance, n).connections;
      assert LinkedTimes(c, distance, n).connections[..|c.connections|] == q.connections[..|c.connections|];
    }
  }

  /** Adding links to a path chain of origin nodes gives the longer path
      chain: `n` `AddLink`s on a fresh chain build `PathChain(n)`. */
  lemma {:induction false} LinkedPathChain(a: nat, distance: real, n: nat)
    ensures LinkedTimes(PathChain(a, distance), distance, n) == PathChain(a + n, distance)
    decreases n
  {
    if n > 0 {
      LinkedPathChain(a, distance, n - 1);
      var r := LinkedTimes(PathChain(a, distance), distance, n);
      assert r.positions == PathChain(a + n, distance).positions;
      assert r.connections == PathChain(a + n, distance).connections;
    }
  }

  /** `PutHeadAt(rootPosition, target)` on a chain value. */
  function PutHead(m: MathLib, c: Chain, rootPosition: Vec2, target: Vec2): Chain
    requires ChainValid(c)
  {
    c.(positions := HeadPutAt(m, c.positions, c.connections, 0, |c.connections|, rootPosition, target))
  }

  /** `Arm`: a chain whose tail is pinned at `relativeRoot` (relative to
      the goal) and whose head follows `destination`. The goal owns its
      arms and no other object refers to them, so an arm is a value. */
  datatype Arm = Arm(relativeRoot: Vec2, destination: Vec2, cooldown: real, chain: Chain)

  /** `new Arm(relativeRoot, numberOfSegments)`: a fresh chain that gets
      `AddLink(10)` once per segment (never for a negative count). */
  method NewArm(relativeRoot: Vec2, numberOfSegments: int) returns (a: Arm)
    ensures a == Arm(relativeRoot, Zero, 0.0,
                     PathChain(if numberOfSegments < 0 then 0 else numberOfSegments, 10.0))
  {
    a := Arm(relativeRoot, Zero, 0.0, Chain([Zero], []));
    var i := 0;
    while i < numberOfSegments
      invariant if numberOfSegments < 0 then i == 0 else 0 <= i <= numberOfSegments
      invariant a == Arm(relativeRoot, Zero, 0.0, LinkedTimes(PathChain(0, 10.0), 10.0, i))
    {
      a := a.(chain := Linked(a.chain, 10.0));
      i := i + 1;
    }
    LinkedPathChain(0, 10.0, i);
  }

  /** `Arm.Update(dt)`: the head is put a `dt * 5` share of the way from
      where it is to the destination, with the tail pinned at the root. */
  function Updated(m: MathLib, a: Arm, dt: real): Arm
    requires ChainValid(a.chain)
  {
    a.(chain := PutHead(m, a.chain, a.relativeRoot, Lerp(HeadOf(a.chain.positions), a.destination, dt * 5.0)))
  }

  /** An arm update moves only the nodes: the root, the aim and the
      connections stay, the tail lands on the root, every link is within
      its length, and the head reaches its target exactly when that is in
      reach of the next node. */
  lemma UpdatedKeeps(m: MathLib, a: Arm, dt: real)
    requires ChainValid(a.chain)
    ensures var r := Updated(m, a, dt);
            r.relativeRoot == a.relativeRoot && r.destination == a.destination && r.cooldown == a.cooldown &&
            r.chain.connections == a.chain.connections && ChainValid(r.chain) &&
            r.chain.positions[|r.chain.connections|] == a.relativeRoot
    ensures var r := Updated(m, a, dt);
            SqrtSound(m) && NonNegativeDistances(a.chain.connections) ==>
              AllWithin(r.chain.positions, r.chain.connections)
  {
    var c := a.chain;
    var target := Lerp(HeadOf(c.positions), a.destination, dt * 5.0);
    HeadPutAtPinsTail(m, c.positions, c.connections, a.relativeRoot, target);
    if SqrtSound(m) && NonNegativeDistances(c.connections) {
      HeadPutAtKeepsLinks(m, c.positions, c.connections, a.relativeRoot, target);
    }
  }
}
