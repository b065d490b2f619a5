/**
 * Worked examples: a right triangle, a collinear triple, a small triangle
 * below the tolerance and the right triangle fitted to a 400 by 400 canvas.
 */
module Examples {
  import opened Arith
  import opened Geometry
  import opened Angles
  import opened Viewport

  /** The right triangle (0,0), (4,0), (0,3). */
  predicate IsRightTriangle(t: Triangle) {
    t == Triangle(Point(0.0, 0.0), Point(4.0, 0.0), Point(0.0, 3.0))
  }

  /** The right triangle is accepted. */
  lemma RightTriangleIsValid(t: Triangle)
    requires IsRightTriangle(t)
    ensures Cross(t) == 12.0 && IsValidTriangle(t)
  {
  }

  /** Three points on the x axis are rejected. */
  lemma CollinearTripleIsInvalid(t: Triangle)
    requires t == Triangle(Point(0.0, 0.0), Point(2.0, 0.0), Point(4.0, 0.0))
    ensures Cross(t) == 0.0 && !IsValidTriangle(t)
  {
  }

  /**
   * A small right isosceles triangle is not collinear, yet its cross product
   * 0.0001 is below the tolerance, so it is rejected like a collinear one.
   */
  lemma SmallTriangleRejected(t: Triangle)
    requires t == Triangle(Point(0.0, 0.0), Point(0.01, 0.0), Point(0.0, 0.01))
    ensures Cross(t) == 0.0001 && !Collinear(t) && !IsValidTriangle(t)
  {
    CollinearIffZeroCross(t);
  }

  lemma RightTriangleEdgesAtA(t: Triangle)
    requires IsRightTriangle(t)
    ensures CreateVector(t.a, t.b) == Point(4.0, 0.0) && CreateVector(t.a, t.c) == Point(0.0, 3.0)
  {
  }

  lemma PerpendicularEdges(u: Vector, v: Vector, trig: Trig)
    requires IsSqrt(trig.sqrt) && u == Point(4.0, 0.0) && v == Point(0.0, 3.0)
    ensures Cosine(u, v, trig) == 0.0
  {
    PerpendicularCosineIsZero(u, v, trig);
  }

  /** The angle of the right triangle at A is right: its cosine is zero. */
  lemma RightTriangleHasRightAngleAtA(t: Triangle, trig: Trig)
    requires IsSqrt(trig.sqrt) && IsRightTriangle(t)
    ensures Cosine(CreateVector(t.a, t.b), CreateVector(t.a, t.c), trig) == 0.0
  {
    RightTriangleEdgesAtA(t);
    PerpendicularEdges(CreateVector(t.a, t.b), CreateVector(t.a, t.c), trig);
  }

  /** The right triangle's bounding box is [0, 4] x [0, 3]. */
  lemma RightTriangleBox(t: Triangle)
    requires IsRightTriangle(t)
    ensures BoundingBox(t) == Box(0.0, 4.0, 0.0, 3.0)
  {
  }

  /** On a 400 by 400 canvas the box [0, 4] x [0, 3] is scaled by 75. */
  lemma RightTriangleScale(box: Box, width: nat, height: nat)
    requires box == Box(0.0, 4.0, 0.0, 3.0) && width == 400 && height == 400
    ensures ScaleFactor(box, width, height) == 75.0
  {
    assert Room(width) == 300.0 && box.RangeX() == 4.0 && box.RangeY() == 3.0;
    assert 300.0 / 4.0 == 75.0 && 300.0 / 3.0 == 100.0;
  }

  /** With scale 75 the corners of the right triangle land at their canvas positions. */
  lemma RightTriangleCorners(box: Box, scale: real, width: nat, height: nat)
    requires box == Box(0.0, 4.0, 0.0, 3.0) && scale == 75.0 && width == 400 && height == 400
    ensures MapPoint(Point(0.0, 0.0), box, scale, width, height) == Point(50.0, 87.5)
    ensures MapPoint(Point(4.0, 0.0), box, scale, width, height) == Point(350.0, 87.5)
    ensures MapPoint(Point(0.0, 3.0), box, scale, width, height) == Point(50.0, 312.5)
  {
    assert box.Centre() == Point(2.0, 1.5);
    assert Mul(-2.0, scale) == -150.0 && Mul(2.0, scale) == 150.0;
    assert Mul(-1.5, scale) == -112.5 && Mul(1.5, scale) == 112.5;
  }

  /**
   * The right triangle on a 400 by 400 canvas: the vertices land at
   * (50, 87.5), (350, 87.5) and (50, 312.5), a box centred at (200, 200)
   * inside [50, 350] x [50, 350].
   */
  lemma FittedRightTriangle(t: Triangle, width: nat, height: nat)
    requires IsRightTriangle(t) && width == 400 && height == 400
    ensures HasExtent(t)
    ensures ScalePointsToCanvas(t, width, height)
         == Triangle(Point(50.0, 87.5), Point(350.0, 87.5), Point(50.0, 312.5))
  {
    RightTriangleBox(t);
    var box := BoundingBox(t);
    RightTriangleScale(box, width, height);
    RightTriangleCorners(box, ScaleOf(t, width, height), width, height);
    MapsVertexByLabel(t, width, height, A);
    MapsVertexByLabel(t, width, height, B);
    MapsVertexByLabel(t, width, height, C);
  }
}
