/** The JSON-friendly wrappers of `Core/`: `SerializableVector2` and
    `SerializableRectangle`. */
module Serializable {
  import opened Geometry

  /** `SerializableVector2`: two floats. */
  datatype SerializableVector2 = SerializableVector2(x: real, y: real)

  /** `ToVector2()`. */
  function ToVector2(s: SerializableVector2): Vec2 {
    Vec2(s.x, s.y)
  }

  /** `new SerializableVector2(Vector2)`: converting back gives the vector. */
  function FromVector2(v: Vec2): (s: SerializableVector2)
    ensures ToVector2(s) == v
  {
    SerializableVector2(v.x, v.y)
  }

  /** `new SerializableVector2(x, y)`. */
  function FromCoordinates(x: real, y: real): (s: SerializableVector2)
    ensures ToVector2(s) == Vec2(x, y)
  {
    SerializableVector2(x, y)
  }

  /** `new SerializableVector2()`: both properties keep their default 0. */
  function DefaultVector(): (s: SerializableVector2)
    ensures ToVector2(s) == Zero
  {
    SerializableVector2(0.0, 0.0)
  }

  /** The implicit conversion from `Vector2` calls the vector constructor. */
  function Implicit(v: Vec2): (s: SerializableVector2)
    ensures s == FromVector2(v)
    ensures ToVector2(s) == v
  {
    FromVector2(v)
  }

  /** `RectangleF` of the framework: a top-left corner and a size. */
  datatype RectangleF = RectangleF(topLeft: Vec2, size: Vec2)

  /** `SerializableRectangle`. Its `X`/`Y` properties read and write
      `TopLeft`, and `Width`/`Height` read and write `Size`. */
  class SerializableRectangle {
    var topLeft: SerializableVector2
    var size: SerializableVector2

    /** `new SerializableRectangle()`: all four values 0. */
    constructor ()
      ensures X() == 0.0 && Y() == 0.0 && Width() == 0.0 && Height() == 0.0
    {
      topLeft := DefaultVector();
      size := DefaultVector();
    }

    /** `new SerializableRectangle(rectangle)`. */
    constructor FromRectangle(r: RectangleF)
      ensures ToRectangleF() == r
    {
      topLeft := FromVector2(r.topLeft);
      size := FromVector2(r.size);
    }

    function X(): real
      reads this
    {
      topLeft.x
    }

    function Y(): real
      reads this
    {
      topLeft.y
    }

    function Width(): real
      reads this
    {
      size.x
    }

    function Height(): real
      reads this
    {
      size.y
    }

    method SetX(value: real)
      modifies this
      ensures X() == value && Y() == old(Y()) && Width() == old(Width()) && Height() == old(Height())
    {
      topLeft := topLeft.(x := value);
    }

    method SetY(value: real)
      modifies this
      ensures Y() == value && X() == old(X()) && Width() == old(Width()) && Height() == old(Height())
    {
      topLeft := topLeft.(y := value);
    }

    method SetWidth(value: real)
      modifies this
      ensures Width() == value && X() == old(X()) && Y() == old(Y()) && Height() == old(Height())
    {
      size := size.(x := value);
    }

    method SetHeight(value: real)
      modifies this
      ensures Height() == value && X() == old(X()) && Y() == old(Y()) && Width() == old(Width())
    {
      size := size.(y := value);
    }

    /** `ToRectangleF()`. */
    function ToRectangleF(): (r: RectangleF)
      reads this
      ensures r.topLeft == Vec2(X(), Y()) && r.size == Vec2(Width(), Height())
    {
      RectangleF(ToVector2(topLeft), ToVector2(size))
    }
  }

  /** The implicit conversion from `RectangleF` calls the rectangle
      constructor. */
  method ImplicitRectangle(r: RectangleF) returns (s: SerializableRectangle)
    ensures fresh(s) && s.ToRectangleF() == r
  {
    s := new SerializableRectangle.FromRectangle(r);
  }
}
