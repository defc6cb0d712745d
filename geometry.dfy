/** Vertex placement on the circle (PolygonGraphView.computePoint). */
module Geometry {
  import opened JavaSemantics

  /** A point in view pixels. */
  datatype Point = Point(x: int, y: int)

  /** Math.cos and Math.sin, left uninterpreted: any pair of functions will do. */
  datatype Trig = Trig(cos: real -> real, sin: real -> real)

  /** Math.PI. */
  const MATH_PI: real := 3.141592653589793

  /** The angle of vertex `position` of `size`: equal steps of 2*pi/size,
      starting a quarter turn back so that vertex 0 is at the top. */
  function Angle(size: int, position: int): (a: real)
    requires size != 0
    ensures position == 0 ==> a == -MATH_PI / 2.0
  {
    (MATH_PI * 2.0) / (size as real) * (position as real) - MATH_PI / 2.0
  }

  /** Consecutive vertices are one step of 2*pi/size apart. */
  lemma AngleStep(size: int, position: int)
    requires size != 0
    ensures Angle(size, position + 1) - Angle(size, position) == (MATH_PI * 2.0) / (size as real)
  {
  }

  /** One step past the last vertex is a full turn from vertex 0. */
  lemma AngleClosure(size: int)
    requires size != 0
    ensures Angle(size, size) == Angle(size, 0) + MATH_PI * 2.0
  {
  }

  /** computePoint: the centre `(width / 2, height / 2)` moved by `radius`
      along the vertex's angle, each coordinate cast to `int`. */
  function ComputePoint(width: nat, height: nat, size: int, position: int, radius: real, trig: Trig): (p: Point)
    requires size != 0
    ensures IsInt32(p.x) && IsInt32(p.y)
  {
    Point(D2I((width / 2) as real + CosAt(size, position, trig) * radius),
          D2I((height / 2) as real + SinAt(size, position, trig) * radius))
  }

  /** Math.cos and Math.sin of the angle of vertex `position` of `size`. */
  function CosAt(size: int, position: int, trig: Trig): real
    requires size != 0
  {
    trig.cos(Angle(size, position))
  }

  function SinAt(size: int, position: int, trig: Trig): real
    requires size != 0
  {
    trig.sin(Angle(size, position))
  }

  /** The centre of a view of the given size. */
  function Centre(width: nat, height: nat): Point
  {
    Point(width / 2, height / 2)
  }

  /** A point at radius 0 is the centre, whatever the trigonometry. */
  lemma ZeroRadiusIsCentre(width: nat, height: nat, size: int, position: int, trig: Trig)
    requires size != 0
    requires width <= INT_MAX && height <= INT_MAX
    ensures ComputePoint(width, height, size, position, 0.0, trig) == Centre(width, height)
  {
    D2IOfInt(width / 2);
    D2IOfInt(height / 2);
  }

  /** Vertex 0 lies straight above the centre at distance `r`, given that the
      cosine of its angle is the double nearest 0 (a non-negative value too
      small to move the truncated coordinate) and its sine is -1. */
  lemma TopVertex(width: nat, height: nat, size: int, r: int, trig: Trig)
    requires size != 0
    requires width <= INT_MAX && height <= INT_MAX && IsInt32(height / 2 - r)
    requires 0.0 <= CosAt(size, 0, trig) * (r as real) < 1.0
    requires SinAt(size, 0, trig) == -1.0
    ensures ComputePoint(width, height, size, 0, r as real, trig) == Point(width / 2, height / 2 - r)
  {
    TopVertexX(width, height, size, r, trig);
    TopVertexY(width, height, size, r, trig);
  }

  /** TopVertex's horizontal part: the tiny cosine offset is truncated away. */
  lemma TopVertexX(width: nat, height: nat, size: int, r: int, trig: Trig)
    requires size != 0 && width <= INT_MAX
    requires 0.0 <= CosAt(size, 0, trig) * (r as real) < 1.0
    ensures ComputePoint(width, height, size, 0, r as real, trig).x == width / 2
  {
    D2IDropsFraction(width / 2, CosAt(size, 0, trig) * (r as real));
  }

  /** TopVertex's vertical part: a sine of -1 moves the point up by `r`. */
  lemma TopVertexY(width: nat, height: nat, size: int, r: int, trig: Trig)
    requires size != 0 && IsInt32(height / 2 - r)
    requires SinAt(size, 0, trig) == -1.0
    ensures ComputePoint(width, height, size, 0, r as real, trig).y == height / 2 - r
  {
    assert (height / 2) as real + SinAt(size, 0, trig) * (r as real) == (height / 2 - r) as real;
    D2IOfInt(height / 2 - r);
  }
}
