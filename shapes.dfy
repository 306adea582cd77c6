/**
 * The three completed shapes: circle, rectangle and triangle, each with an
 * area and a perimeter. Lengths are exact reals; the triangle's two extra
 * sides are optional and its perimeter fails when either is missing.
 */
module Shapes {
  import opened Options

  /** The value of Python's `math.pi` as it prints (3.141592653589793). */
  const PI: real := 3.141592653589793

  /** `x ** n` for a natural exponent; the area uses `n == 2`. */
  function Pow(x: real, n: nat): real
  {
    if n == 0 then 1.0 else x * Pow(x, n - 1)
  }

  /** The error `perimeter` raises when it cannot be computed. */
  datatype ShapeError = NotImplemented

  datatype Shape =
    | Circle(radius: real)
    | Rectangle(width: real, height: real)
    | Triangle(base: real, height: real, sideA: Option<real> := None, sideB: Option<real> := None)
  {
    /**
     * The documented precondition: the radius, the width and height, or the
     * base and height are positive. Nothing is documented about the
     * triangle's optional sides.
     */
    predicate Positive() {
      match this
      case Circle(r) => r > 0.0
      case Rectangle(w, h) => w > 0.0 && h > 0.0
      case Triangle(b, h, _, _) => b > 0.0 && h > 0.0
    }

    /**
     * The triangle's optional sides, when given, are positive. This is an
     * assumption of the model only, used for the perimeter's sign.
     */
    predicate SidesPositive() {
      Triangle? ==> (sideA.Some? ==> sideA.value > 0.0) && (sideB.Some? ==> sideB.value > 0.0)
    }

    /**
     * The area; every shape has one, whether or not the triangle's sides are
     * given. A triangle covers half of the base-by-height rectangle.
     */
    function Area(): (a: real)
      ensures Triangle? ==> 2.0 * a == base * height
    {
      match this
      case Circle(r) => PI * Pow(r, 2)
      case Rectangle(w, h) => w * h
      case Triangle(b, h, _, _) => 0.5 * b * h
    }

    /**
     * The perimeter. A triangle without both optional sides has none and
     * reports `NotImplemented`; every other shape has one.
     */
    function Perimeter(): (p: Result<real, ShapeError>)
      ensures p.Err? <==> Triangle? && (sideA.None? || sideB.None?)
      ensures Positive() && SidesPositive() && p.Ok? ==> p.value > 0.0
    {
      match this
      case Circle(r) => Ok(2.0 * PI * r)
      case Rectangle(w, h) => Ok(2.0 * (w + h))
      case Triangle(b, _, a, c) =>
        if a.None? || c.None? then Err(NotImplemented)
        else Ok(b + a.value + c.value)
    }
  }

  /** The product of two positive reals is positive. */
  lemma ProductPositive(x: real, y: real)
    requires x > 0.0 && y > 0.0
    ensures x * y > 0.0
  {
  }

  /** Regroups a product of four factors. */
  lemma Regroup(a: real, b: real, c: real, d: real)
    ensures (a * b) * (c * d) == (a * c) * (b * d)
  {
  }

  /** Squaring is multiplying a number by itself. */
  lemma PowTwo(x: real)
    ensures Pow(x, 2) == x * x
  {
    assert Pow(x, 1) == x;
  }

  /** A positive base raised to any natural power is positive. */
  lemma {:induction false} PowPositive(x: real, n: nat)
    requires x > 0.0
    ensures Pow(x, n) > 0.0
  {
    if n > 0 {
      PowPositive(x, n - 1);
      ProductPositive(x, Pow(x, n - 1));
    }
  }

  /**
   * Positive lengths (the documented precondition) give a positive area;
   * the triangle's optional sides play no part.
   */
  lemma AreaPositive(s: Shape)
    requires s.Positive()
    ensures s.Area() > 0.0
  {
    match s
    case Circle(r) =>
      PowPositive(r, 2);
      ProductPositive(PI, Pow(r, 2));
    case Rectangle(w, h) =>
      ProductPositive(w, h);
    case Triangle(b, h, _, _) =>
      ProductPositive(0.5 * b, h);
  }

  /**
   * For a circle, area and perimeter are tied without mentioning pi:
   * twice the area is the perimeter times the radius.
   */
  lemma CircleAreaFromPerimeter(r: real)
    ensures 2.0 * Circle(r).Area() == Circle(r).Perimeter().value * r
  {
    PowTwo(r);
    Regroup(2.0, PI, r, r);
  }

  /** A square of side `s` has area `s ** 2` and perimeter `4 * s`. */
  lemma SquareFormulas(s: real)
    ensures Rectangle(s, s).Area() == Pow(s, 2)
    ensures Rectangle(s, s).Perimeter() == Ok(4.0 * s)
  {
    PowTwo(s);
  }

  /**
   * A triangle's area depends only on its base and height: the optional
   * sides change the perimeter, never the area.
   */
  lemma TriangleAreaIgnoresSides(b: real, h: real, a: Option<real>, c: Option<real>)
    ensures Triangle(b, h, a, c).Area() == Triangle(b, h).Area()
  {
  }

  /** The worked cases of the shapes' tests. */
  lemma ShapeExamples()
    ensures Circle(1.0).Area() == PI && Circle(1.0).Perimeter() == Ok(2.0 * PI)
    ensures Rectangle(6.0, 8.0).Area() == 48.0
    ensures Rectangle(3.0, 7.0).Perimeter() == Ok(20.0)
    ensures Rectangle(5.0, 5.0).Area() == 25.0 && Rectangle(5.0, 5.0).Perimeter() == Ok(20.0)
    ensures Triangle(10.0, 12.0).Area() == 60.0
    ensures Triangle(3.0, 4.0).Perimeter() == Err(NotImplemented)
    ensures Triangle(3.0, 4.0, Some(4.0), Some(5.0)).Perimeter() == Ok(12.0)
    ensures Triangle(5.0, 12.0, Some(13.0), Some(13.0)).Area() == 30.0
    ensures Triangle(5.0, 12.0, Some(13.0), Some(13.0)).Perimeter() == Ok(31.0)
  {
  }
}
