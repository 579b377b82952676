/** `FrogRenderer.cs`: the frog on its lily pad. The model covers its
    physics (falling, landing, leg extension on a jump) and its splash
    rings, which spread for a second and then vanish. */
module Frogs {
  import opened Geometry
  import opened Entities

  /** `float.Epsilon`, the smallest positive float. */
  const FloatEpsilon: real := 1.401298464324817e-45

  /** The fall acceleration, per second squared. */
  const Gravity: real := 500.0

  /** The upward speed a completed leg extension gives. */
  const JumpSpeed: real := 500.0

  /** Leg extent on landing; the legs are folded under. */
  const LandingLegExtent: real := -0.25

  /** Splash intensities of a landing and of a jump; a ring vanishes once it
      has spread for this long. */
  const LandingSplash: real := 5.0
  const JumpSplash: real := 2.0
  const RingLifetime: real := 1.0

  /** The eyelid's opening between blinks. */
  const EyelidOpen: real := 0.6

  /** What one frame of `Update` reads and writes: the frog's position (its
      entity's) and the renderer's own fields. */
  datatype FrogState = FrogState(position: Vec2, breathAmount: real, legExtent: real,
                                 verticalVelocity: real, isExtending: bool, legWiggle: real,
                                 legWiggleElapsed: real, isRebounding: bool, lilyPadWobble: real,
                                 splashRings: seq<real>)

  /** What every frame keeps: the legs between folded and fully extended,
      folded legs only while rebounding, and every ring young. */
  predicate ValidFrog(s: FrogState) {
    LandingLegExtent <= s.legExtent <= 1.0 &&
    (s.legExtent < 0.0 ==> s.isRebounding) &&
    forall i :: 0 <= i < |s.splashRings| ==> 0.0 <= s.splashRings[i] < RingLifetime
  }

  /** Every ring a frame older. */
  function Aged(rings: seq<real>, dt: real): (r: seq<real>)
    ensures |r| == |rings|
    ensures forall i :: 0 <= i < |r| ==> r[i] == rings[i] + dt
  {
    seq(|rings|, i requires 0 <= i < |rings| => rings[i] + dt)
  }

  /** The rings younger than the lifetime, in order: what
      `RemoveAll(a => a >= 1)` leaves. */
  function Unfaded(rings: seq<real>): (r: seq<real>)
    ensures |r| <= |rings|
    ensures forall i :: 0 <= i < |r| ==> r[i] < RingLifetime && r[i] in rings
    ensures forall x :: x in rings && x < RingLifetime ==> x in r
  {
    if |rings| == 0 then []
    else if rings[0] >= RingLifetime then Unfaded(rings[1..])
    else [rings[0]] + Unfaded(rings[1..])
  }

  /** Removing the spent rings keeps the young ones in order. */
  lemma {:induction false} UnfadedOfYoungRings(rings: seq<real>)
    requires forall i :: 0 <= i < |rings| ==> rings[i] < RingLifetime
    ensures Unfaded(rings) == rings
  {
    if |rings| > 0 {
      UnfadedOfYoungRings(rings[1..]);
    }
  }

  /** `Splash(intensity)`: the pad wobbles and a new ring starts. */
  function Splashed(s: FrogState, intensity: real): (r: FrogState)
    ensures r.splashRings == s.splashRings + [0.0] && r.lilyPadWobble == intensity
  {
    s.(lilyPadWobble := intensity, splashRings := s.splashRings + [0.0])
  }

  /** In the air the frog falls faster and its legs wiggle quickly; on the
      pad it breathes and its legs wiggle at a random pace. The wiggle
      follows the sine of its clock. */
  function Swayed(m: MathLib, s: FrogState, floorY: real, dt: real, elapsed: real, draw: real): (r: FrogState)
    ensures r.position == s.position && r.legExtent == s.legExtent && r.splashRings == s.splashRings
    ensures r.isExtending == s.isExtending && r.isRebounding == s.isRebounding
    ensures r.lilyPadWobble == s.lilyPadWobble
  {
    var airborne := Abs(s.position.y - floorY) > FloatEpsilon;
    var t := if airborne then s.(verticalVelocity := s.verticalVelocity + dt * Gravity,
                                 legWiggleElapsed := s.legWiggleElapsed + dt * 5.0)
             else s.(breathAmount := m.sin(elapsed * 5.0),
                     legWiggleElapsed := s.legWiggleElapsed + dt * 5.0 * draw);
    t.(legWiggle := m.sin(t.legWiggleElapsed) / 2.0)
  }

  /** `Math.Abs`. */
  function Abs(x: real): (r: real)
    ensures 0.0 <= r && (r == x || r == -x)
  {
    if x < 0.0 then -x else x
  }

  /** Below the pad the frog lands: it is put on the pad, stops, folds its
      legs, starts rebounding and splashes. */
  function Landed(s: FrogState, floorY: real): (r: FrogState)
    ensures s.position.y > floorY ==>
              r.position == s.position.(y := floorY) && r.verticalVelocity == 0.0 &&
              r.legExtent == LandingLegExtent && r.isRebounding &&
              r.splashRings == s.splashRings + [0.0] && r.lilyPadWobble == LandingSplash
    ensures s.position.y <= floorY ==> r == s
    ensures r.isExtending == s.isExtending
  {
    if s.position.y > floorY
    then Splashed(s.(position := s.position.(y := floorY), legExtent := LandingLegExtent,
                     isRebounding := true), LandingSplash).(verticalVelocity := 0.0)
    else s
  }

  /** A wobbling pad settles at 60 units a second. */
  function Wobbled(s: FrogState, dt: real): FrogState {
    if s.lilyPadWobble > 0.0 then s.(lilyPadWobble := s.lilyPadWobble - dt * 60.0) else s
  }

  /** Rebounding legs unfold at 4 a second until straight, which ends the
      rebound. */
  function Rebounded(s: FrogState, dt: real): (r: FrogState)
    ensures !s.isRebounding ==> r == s
    ensures s.isRebounding && s.legExtent + dt * 4.0 > 0.0 ==> r == s.(legExtent := 0.0, isRebounding := false)
    ensures s.isRebounding && s.legExtent + dt * 4.0 <= 0.0 ==> r == s.(legExtent := s.legExtent + dt * 4.0)
  {
    if !s.isRebounding then s
    else if s.legExtent + dt * 4.0 > 0.0 then s.(legExtent := 0.0, isRebounding := false)
    else s.(legExtent := s.legExtent + dt * 4.0)
  }

  /** The frog moves by its vertical velocity. */
  function Fallen(s: FrogState, dt: real): (r: FrogState)
    ensures r.position.x == s.position.x
    ensures r == s.(position := r.position)
  {
    s.(position := Add(s.position, Vec2(0.0, s.verticalVelocity * dt)))
  }

  /** The rings grow older and the spent ones vanish. */
  function RingsAged(s: FrogState, dt: real): FrogState {
    s.(splashRings := Unfaded(Aged(s.splashRings, dt)))
  }

  /** Extending legs stretch at 25 a second; once fully stretched the frog
      leaps upward and the extension ends. */
  function Extended(s: FrogState, dt: real): (r: FrogState)
    ensures !s.isExtending ==> r == s
    ensures s.isExtending && s.legExtent + dt * 25.0 > 1.0 ==>
              r == s.(legExtent := 1.0, verticalVelocity := -JumpSpeed, isExtending := false)
    ensures s.isExtending && s.legExtent + dt * 25.0 <= 1.0 ==> r == s.(legExtent := s.legExtent + dt * 25.0)
  {
    if !s.isExtending then s
    else if s.legExtent + dt * 25.0 > 1.0 then s.(legExtent := 1.0, verticalVelocity := -JumpSpeed, isExtending := false)
    else s.(legExtent := s.legExtent + dt * 25.0)
  }

  /** Extended legs relax at half a unit a second, down to straight. */
  function Settled(s: FrogState, dt: real): (r: FrogState)
    ensures s.legExtent <= 0.0 ==> r == s
    ensures s.legExtent > 0.0 ==> r == s.(legExtent := Floored(s.legExtent - dt / 2.0, 0.0))
  {
    if s.legExtent > 0.0 then s.(legExtent := Floored(s.legExtent - dt / 2.0, 0.0)) else s
  }

  /** One frame of `Update` after the blink; `elapsed` is the game clock and
      `draw` the random wiggle pace in [0, 1). */
  function FrogStep(m: MathLib, s: FrogState, floorY: real, dt: real, elapsed: real, draw: real): FrogState {
    var landed := Landed(Swayed(m, s, floorY, dt, elapsed, draw), floorY);
    Settled(Extended(RingsAged(Fallen(Rebounded(Wobbled(landed, dt), dt), dt), dt), dt), dt)
  }

  /** Young rings stay young for one frame more if they do not grow past
      the lifetime; those that do are removed. */
  lemma {:induction false} RingsStayYoung(rings: seq<real>, dt: real)
    requires 0.0 <= dt
    requires forall i :: 0 <= i < |rings| ==> 0.0 <= rings[i] < RingLifetime
    ensures forall i :: 0 <= i < |Unfaded(Aged(rings, dt))| ==> 0.0 <= Unfaded(Aged(rings, dt))[i] < RingLifetime
  {
    var aged := Aged(rings, dt);
    assert forall x :: x in aged ==> 0.0 <= x;
  }

  /** Swaying and landing keep the frog valid: a landing folds the legs
      but starts the rebound, and its ring is new. */
  lemma LandingKeepsValid(m: MathLib, s: FrogState, floorY: real, dt: real, elapsed: real, draw: real)
    requires ValidFrog(s)
    ensures ValidFrog(Landed(Swayed(m, s, floorY, dt, elapsed, draw), floorY))
  {
  }

  /** The wobble, the rebound and the fall keep the frog valid: unfolding
      legs stop at straight. */
  lemma ReboundKeepsValid(s: FrogState, dt: real)
    requires ValidFrog(s) && 0.0 <= dt
    ensures ValidFrog(Fallen(Rebounded(Wobbled(s, dt), dt), dt))
  {
  }

  /** Ageing the rings keeps the frog valid. */
  lemma AgeingKeepsValid(s: FrogState, dt: real)
    requires ValidFrog(s) && 0.0 <= dt
    ensures ValidFrog(RingsAged(s, dt))
  {
    RingsStayYoung(s.splashRings, dt);
  }

  /** Extending and relaxing keep the legs within their range. */
  lemma StretchKeepsValid(s: FrogState, dt: real)
    requires ValidFrog(s) && 0.0 <= dt
    ensures ValidFrog(Settled(Extended(s, dt), dt))
  {
  }

  /** Every frame with a non-negative step keeps the frog valid. */
  lemma FrogStepKeepsValid(m: MathLib, s: FrogState, floorY: real, dt: real, elapsed: real, draw: real)
    requires ValidFrog(s) && 0.0 <= dt
    ensures ValidFrog(FrogStep(m, s, floorY, dt, elapsed, draw))
  {
    var landed := Landed(Swayed(m, s, floorY, dt, elapsed, draw), floorY);
    LandingKeepsValid(m, s, floorY, dt, elapsed, draw);
    var fallen := Fallen(Rebounded(Wobbled(landed, dt), dt), dt);
    ReboundKeepsValid(landed, dt);
    AgeingKeepsValid(fallen, dt);
    StretchKeepsValid(RingsAged(fallen, dt), dt);
  }

  /** A frog already on the pad, at rest, with nothing extending, stays on
      the pad. */
  lemma RestingFrogStays(m: MathLib, s: FrogState, floorY: real, dt: real, elapsed: real, draw: real)
    requires s.position.y == floorY && s.verticalVelocity == 0.0 && !s.isExtending
    ensures FrogStep(m, s, floorY, dt, elapsed, draw).position == s.position
  {
  }

  /** `Jump()`: the legs start extending and the pad splashes. */
  function Jumped(s: FrogState): (r: FrogState)
    ensures r.isExtending && r.lilyPadWobble == JumpSplash && r.splashRings == s.splashRings + [0.0]
    ensures r == Splashed(s.(isExtending := true), JumpSplash)
  {
    Splashed(s.(isExtending := true), JumpSplash)
  }

  /** A jump keeps the frog valid: the new ring starts at age zero. */
  lemma JumpKeepsValid(s: FrogState)
    requires ValidFrog(s)
    ensures ValidFrog(Jumped(s))
  {
  }

  /** `FrogRenderer`. */
  class FrogRenderer {
    const entity: Entity
    /** Where the pad is: the entity's position when the renderer was made. */
    const floorPosition: Vec2
    var breathAmount: real
    var eyelidOpenAmount: real
    var legExtent: real
    var verticalVelocity: real
    var isExtending: bool
    var legWiggle: real
    var legWiggleElapsed: real
    var isRebounding: bool
    var lilyPadWobble: real
    var splashRings: seq<real>

    function State(): FrogState
      reads this, entity
    {
      FrogState(entity.position, breathAmount, legExtent, verticalVelocity, isExtending, legWiggle,
                legWiggleElapsed, isRebounding, lilyPadWobble, splashRings)
    }

    /** `new FrogRenderer(entity)`: on the pad where the entity stands, at
        rest, eyes open, no rings. */
    constructor (e: Entity)
      ensures entity == e && floorPosition == e.position
      ensures State() == FrogState(e.position, 0.0, 0.0, 0.0, false, 0.0, 0.0, false, 0.0, [])
      ensures eyelidOpenAmount == EyelidOpen
      ensures ValidFrog(State())
    {
      entity := e;
      floorPosition := e.position;
      legExtent := 0.0;
      breathAmount := 0.0;
      eyelidOpenAmount := EyelidOpen;
      verticalVelocity := 0.0;
      isExtending := false;
      legWiggle := 0.0;
      legWiggleElapsed := 0.0;
      isRebounding := false;
      lilyPadWobble := 0.0;
      splashRings := [];
    }

    /** `Splash(intensity)`. */
    method Splash(intensity: real)
      modifies this`lilyPadWobble, this`splashRings
      ensures State() == Splashed(old(State()), intensity)
    {
      lilyPadWobble := intensity;
      splashRings := splashRings + [0.0];
    }

    /** `Jump()`. */
    method Jump()
      modifies this`isExtending, this`lilyPadWobble, this`splashRings
      ensures State() == Jumped(old(State()))
    {
      isExtending := true;
      Splash(JumpSplash);
    }

    /** The part of `Update` before the landing test. */
    method Sway(m: MathLib, dt: real, elapsed: real, draw: real)
      modifies this`verticalVelocity, this`legWiggleElapsed, this`breathAmount, this`legWiggle
      ensures State() == Swayed(m, old(State()), floorPosition.y, dt, elapsed, draw)
    {
      if Abs(entity.position.y - floorPosition.y) > FloatEpsilon {
        verticalVelocity := verticalVelocity + dt * Gravity;
        legWiggleElapsed := legWiggleElapsed + dt * 5.0;
      } else {
        breathAmount := m.sin(elapsed * 5.0);
        legWiggleElapsed := legWiggleElapsed + dt * 5.0 * draw;
      }
      legWiggle := m.sin(legWiggleElapsed) / 2.0;
    }

    /** The landing test. */
    method Land()
      modifies entity`position, this`legExtent, this`isRebounding, this`lilyPadWobble,
               this`splashRings, this`verticalVelocity
      ensures State() == Landed(old(State()), floorPosition.y)
    {
      if entity.position.y > floorPosition.y {
        entity.position := entity.position.(y := floorPosition.y);
        legExtent := LandingLegExtent;
        isRebounding := true;
        Splash(LandingSplash);
        verticalVelocity := 0.0;
      }
    }

    /** The wobble, the rebound and the fall. */
    method Rebound(dt: real)
      modifies entity`position, this`lilyPadWobble, this`legExtent, this`isRebounding
      ensures State() == Fallen(Rebounded(Wobbled(old(State()), dt), dt), dt)
    {
      if lilyPadWobble > 0.0 {
        lilyPadWobble := lilyPadWobble - dt * 60.0;
      }
      if isRebounding {
        legExtent := legExtent + dt * 4.0;
        if legExtent > 0.0 {
          legExtent := 0.0;
          isRebounding := false;
        }
      }
      entity.position := Add(entity.position, Vec2(0.0, verticalVelocity * dt));
    }

    /** Every ring grows one frame older, in place; then the spent ones are
        removed. */
    method AgeRings(dt: real)
      modifies this`splashRings
      ensures splashRings == Unfaded(Aged(old(splashRings), dt))
    {
      ghost var before := splashRings;
      for index := 0 to |splashRings|
        invariant |splashRings| == |before|
        invariant forall i :: 0 <= i < index ==> splashRings[i] == before[i] + dt
        invariant forall i :: index <= i < |splashRings| ==> splashRings[i] == before[i]
      {
        splashRings := splashRings[index := splashRings[index] + dt];
      }
      assert splashRings == Aged(before, dt);
      splashRings := Unfaded(splashRings);
    }

    /** The leg extension and relaxation. */
    method Stretch(dt: real)
      modifies this`legExtent, this`verticalVelocity, this`isExtending
      ensures State() == Settled(Extended(old(State()), dt), dt)
    {
      if isExtending {
        legExtent := legExtent + dt * 25.0;
        if legExtent > 1.0 {
          legExtent := 1.0;
          verticalVelocity := -JumpSpeed;
          isExtending := false;
        }
      }
      if legExtent > 0.0 {
        legExtent := legExtent - dt / 2.0;
        if legExtent < 0.0 {
          legExtent := 0.0;
        }
      }
    }

    /** `Update(dt)`, after the blink. */
    method Update(m: MathLib, dt: real, elapsed: real, draw: real)
      modifies entity`position, this`breathAmount, this`legExtent, this`verticalVelocity, this`isExtending,
               this`legWiggle, this`legWiggleElapsed, this`isRebounding, this`lilyPadWobble, this`splashRings
      ensures State() == FrogStep(m, old(State()), floorPosition.y, dt, elapsed, draw)
      ensures old(ValidFrog(State())) && 0.0 <= dt ==> ValidFrog(State())
    {
      ghost var start := State();
      Sway(m, dt, elapsed, draw);
      ghost var swayed := State();
      Land();
      ghost var landed := State();
      assert landed == Landed(Swayed(m, start, floorPosition.y, dt, elapsed, draw), floorPosition.y);
      Rebound(dt);
      ghost var fallen := State();
      AgeRings(dt);
      assert State() == RingsAged(fallen, dt);
      Stretch(dt);
      if ValidFrog(start) && 0.0 <= dt {
        FrogStepKeepsValid(m, start, floorPosition.y, dt, elapsed, draw);
      }
    }
  }
}
