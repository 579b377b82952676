/** Exact-arithmetic stand-ins for the framework's `Vector2`, `MathF` and
    `Math.Clamp`. Every `float` of the game is a `real` here. Square root,
    sine, cosine and arc-tangent have no definition in Dafny, so the model
    receives them as a `MathLib` value and assumes only `Sound` of it.

    Products are written through `Mul` and `Sq` in every lemma contract:
    the solver then relates equal products by congruence. */
module Geometry {

  datatype Vec2 = Vec2(x: real, y: real)

  const Zero: Vec2 := Vec2(0.0, 0.0)

  /** `MathF.PI`, the single-precision value of pi. */
  const Pi: real := 3.1415927410125732

  function Add(a: Vec2, b: Vec2): Vec2 { Vec2(a.x + b.x, a.y + b.y) }

  function Sub(a: Vec2, b: Vec2): Vec2 { Vec2(a.x - b.x, a.y - b.y) }

  function Neg(v: Vec2): Vec2 { Vec2(-v.x, -v.y) }

  function Scale(v: Vec2, k: real): Vec2 { Vec2(v.x * k, v.y * k) }

  function Mul(a: real, b: real): real { a * b }

  function Sq(a: real): real { a * a }

  /** `Vector2.LengthSquared`. */
  function LengthSq(v: Vec2): real { v.x * v.x + v.y * v.y }

  /** `Vector2.DistanceSquared`. */
  function DistSq(a: Vec2, b: Vec2): real { LengthSq(Sub(a, b)) }

  /** `Vector2.Lerp(a, b, t) = a + (b - a) * t`. */
  function Lerp(a: Vec2, b: Vec2, t: real): Vec2 { Add(a, Scale(Sub(b, a), t)) }

  /** `Math.Clamp(v, lo, hi)` for `lo <= hi` (it throws otherwise). */
  function Clamp(v: real, lo: real, hi: real): (r: real)
    requires lo <= hi
    ensures lo <= r <= hi
    ensures lo <= v <= hi ==> r == v
    ensures v < lo ==> r == lo
    ensures hi < v ==> r == hi
  {
    if v < lo then lo else if v > hi then hi else v
  }

  /** `v`, raised to `floor` when it fell below it: the game's
      `x -= d; if (x < floor) x = floor;` steps. */
  function Floored(v: real, floor: real): (r: real)
    ensures r >= floor && r >= v
    ensures r == v || r == floor
  {
    if v < floor then floor else v
  }

  /** `|v| < r`, decided on squared lengths. */
  predicate ShorterThan(v: Vec2, r: real) { 0.0 < r && LengthSq(v) < Sq(r) }

  /** `|v| > d`, decided on squared lengths. */
  predicate LongerThan(v: Vec2, d: real) { d < 0.0 || LengthSq(v) > Sq(d) }

  /** `|v| <= d`. */
  predicate NoLongerThan(v: Vec2, d: real) { 0.0 <= d && LengthSq(v) <= Sq(d) }

  /** `Vector2.Distance(a, b) < r`. */
  predicate Within(a: Vec2, b: Vec2, r: real) { ShorterThan(Sub(a, b), r) }

  /** The platform's transcendental functions. */
  datatype MathLib = MathLib(sqrt: real -> real, sin: real -> real, cos: real -> real,
                             atan2: (real, real) -> real)

  /** `sqrt` is the non-negative square root. */
  ghost predicate SqrtSound(m: MathLib) {
    forall x: real {:trigger m.sqrt(x)} :: 0.0 <= x ==> 0.0 <= m.sqrt(x) && Sq(m.sqrt(x)) == x
  }

  /** `sin` and `cos` lie on the unit circle. */
  ghost predicate TrigSound(m: MathLib) {
    forall a: real {:trigger m.sin(a)} :: Sq(m.sin(a)) + Sq(m.cos(a)) == 1.0
  }

  /** What the model assumes of the platform. Nothing is assumed of
      `atan2`: no property below depends on it. */
  ghost predicate Sound(m: MathLib) {
    SqrtSound(m) && TrigSound(m)
  }

  /** `Vector2.Length()`. */
  function Length(m: MathLib, v: Vec2): real { m.sqrt(LengthSq(v)) }

  /** `Vector2.Normalized()`. The framework yields NaN for the zero vector;
      the model yields the zero vector there. */
  function Normalized(m: MathLib, v: Vec2): Vec2 {
    var l := Length(m, v);
    if l == 0.0 then Zero else Scale(v, 1.0 / l)
  }

  /** `Vector2Extensions.Polar(radius, angle)`. */
  function Polar(m: MathLib, radius: real, angle: real): Vec2 {
    Vec2(m.cos(angle) * radius, m.sin(angle) * radius)
  }

  /** `Vector2Extensions.GetAngleFromUnitX(v)`. */
  function AngleFromUnitX(m: MathLib, v: Vec2): real { m.atan2(v.y, v.x) }

  lemma MulPositive(a: real, b: real)
    requires 0.0 < a && 0.0 < b
    ensures 0.0 < Mul(a, b)
  {
  }

  lemma MulNonNegative(a: real, b: real)
    requires 0.0 <= a && 0.0 <= b
    ensures 0.0 <= Mul(a, b)
  {
    if 0.0 < a && 0.0 < b {
      MulPositive(a, b);
    }
  }

  lemma MulNegatives(a: real, b: real)
    requires a < 0.0 && b < 0.0
    ensures 0.0 < Mul(a, b)
  {
  }

  lemma SquarePositive(a: real)
    requires a != 0.0
    ensures 0.0 < Sq(a)
  {
    if 0.0 < a {
      MulPositive(a, a);
    } else {
      MulNegatives(a, a);
    }
  }

  lemma SquareNonNegative(a: real)
    ensures 0.0 <= Sq(a)
  {
    if a != 0.0 {
      SquarePositive(a);
    }
  }


  /** `LengthSq` is the sum of the squared coordinates. */
  lemma LengthSqIsSumOfSquares(v: Vec2)
    ensures LengthSq(v) == Sq(v.x) + Sq(v.y)
  {
  }

  /** A squared length is never negative, and is zero only for `Zero`. */
  lemma LengthSqNonNegative(v: Vec2)
    ensures 0.0 <= LengthSq(v)
    ensures LengthSq(v) == 0.0 <==> v == Zero
  {
    SquareNonNegative(v.x);
    SquareNonNegative(v.y);
    if v.x != 0.0 {
      SquarePositive(v.x);
    }
    if v.y != 0.0 {
      SquarePositive(v.y);
    }
  }

  lemma SquareOfProduct(a: real, k: real)
    ensures Sq(a * k) == Mul(Sq(k), Sq(a))
  {
  }

  lemma LengthSqScale(v: Vec2, k: real)
    ensures LengthSq(Scale(v, k)) == Mul(Sq(k), LengthSq(v))
  {
    SquareOfProduct(v.x, k);
    SquareOfProduct(v.y, k);
  }

  lemma LengthSqNeg(v: Vec2)
    ensures LengthSq(Neg(v)) == LengthSq(v)
  {
  }

  /** The square-root law of a sound `MathLib`, for one argument. */
  lemma SqrtLaw(m: MathLib, x: real)
    requires SqrtSound(m) && 0.0 <= x
    ensures 0.0 <= m.sqrt(x) && Sq(m.sqrt(x)) == x
  {
  }

  lemma LengthLaw(m: MathLib, v: Vec2)
    requires SqrtSound(m)
    ensures 0.0 <= Length(m, v)
    ensures Sq(Length(m, v)) == LengthSq(v)
    ensures Length(m, v) == 0.0 <==> v == Zero
  {
    var l := Length(m, v);
    assert l == m.sqrt(LengthSq(v));
    LengthSqNonNegative(v);
    SqrtLaw(m, LengthSq(v));
    if Length(m, v) != 0.0 {
      SquarePositive(Length(m, v));
    }
  }

  lemma SquareOfReciprocal(l: real)
    requires l != 0.0
    ensures Mul(Sq(1.0 / l), Sq(l)) == 1.0
  {
  }

  /** Squaring is strictly monotone on the non-negative reals. */
  lemma SquareStrictlyMonotone(a: real, b: real)
    requires 0.0 <= a < b
    ensures Sq(a) < Sq(b)
  {
    assert Mul(a, b) - Sq(a) == Mul(a, b - a);
    assert Sq(b) - Mul(a, b) == Mul(b, b - a);
    MulPositive(b, b - a);
    MulNonNegative(a, b - a);
  }

  /** For non-negative `a` and `b`, comparing squares compares the values. */
  lemma SquareMonotone(a: real, b: real)
    requires 0.0 <= a && 0.0 <= b
    ensures a < b <==> Sq(a) < Sq(b)
    ensures a <= b <==> Sq(a) <= Sq(b)
  {
    if a < b {
      SquareStrictlyMonotone(a, b);
    } else if b < a {
      SquareStrictlyMonotone(b, a);
    }
  }

  /** Comparing a non-negative `l` with `r` through their squares. */
  lemma CompareBySquares(l: real, r: real)
    requires 0.0 <= l
    ensures (0.0 < r && Sq(l) < Sq(r)) <==> l < r
    ensures (r < 0.0 || Sq(l) > Sq(r)) <==> l > r
    ensures (0.0 <= r && Sq(l) <= Sq(r)) <==> l <= r
  {
    if 0.0 <= r {
      SquareMonotone(l, r);
    }
  }

  /** The squared-length comparisons agree with comparisons of `Length`. */
  lemma ComparisonsAgreeWithLength(m: MathLib, v: Vec2, r: real)
    requires SqrtSound(m)
    ensures ShorterThan(v, r) <==> Length(m, v) < r
    ensures LongerThan(v, r) <==> Length(m, v) > r
    ensures NoLongerThan(v, r) <==> Length(m, v) <= r
  {
    LengthLaw(m, v);
    CompareBySquares(Length(m, v), r);
  }

  /** A non-zero vector normalises to unit length. */
  lemma NormalizedLength(m: MathLib, v: Vec2)
    requires SqrtSound(m) && v != Zero
    ensures LengthSq(Normalized(m, v)) == 1.0
  {
    LengthLaw(m, v);
    var l := Length(m, v);
    LengthSqScale(v, 1.0 / l);
    SquareOfReciprocal(l);
  }

  /** A normalised non-zero vector scaled by `k` has length `|k|`. */
  lemma ScaledNormalizedLength(m: MathLib, v: Vec2, k: real)
    requires SqrtSound(m) && v != Zero
    ensures LengthSq(Scale(Normalized(m, v), k)) == Sq(k)
  {
    NormalizedLength(m, v);
    LengthSqScale(Normalized(m, v), k);
  }

  /** `Polar(r, a)` has length `|r|`. */
  lemma PolarLength(m: MathLib, radius: real, angle: real)
    requires TrigSound(m)
    ensures LengthSq(Polar(m, radius, angle)) == Sq(radius)
  {
    var c, s := m.cos(angle), m.sin(angle);
    assert Sq(s) + Sq(c) == 1.0;
    SquareOfProduct(c, radius);
    SquareOfProduct(s, radius);
    assert Mul(Sq(radius), Sq(c)) + Mul(Sq(radius), Sq(s)) == Mul(Sq(radius), Sq(c) + Sq(s));
  }

  /** A vector of squared length `k * k` is no longer than a non-negative `k`. */
  lemma ExactLengthIsNoLonger(v: Vec2, k: real)
    requires 0.0 <= k && LengthSq(v) == Sq(k)
    ensures NoLongerThan(v, k) && !LongerThan(v, k)
  {
  }

  /** `NoLongerThan` is exactly the negation of `LongerThan`. */
  lemma NoLongerIsNotLonger(v: Vec2, d: real)
    ensures NoLongerThan(v, d) <==> !LongerThan(v, d)
  {
  }

  /** Distances along a translation are preserved. */
  lemma SubOfAdd(c: Vec2, s: Vec2)
    ensures Sub(Add(c, s), c) == s
    ensures Sub(c, Sub(c, s)) == s
    ensures Sub(Sub(c, s), c) == Neg(s)
  {
  }
}
