/**
 * Interior angles of a triangle (`calculateAngles`,
 * `calculateAngleBetweenVectors`) and the diagnostic angle-sum check
 * (`validateAngles`) of src/js/display.js.
 *
 * `Math.sqrt` and `Math.acos` are supplied by the caller as a `Trig` value:
 * the square root is pinned down only by its defining property, the arc
 * cosine only by the range `IsAcos`, and only where a lemma asks for it.
 */
module Angles {
  import opened Arith
  import opened Geometry

  /** `Math.PI`, as a double prints. */
  const Pi: real := 3.141592653589793

  /** Tolerance of the angle-sum check, in degrees. */
  const Tolerance: real := 0.1

  /** The platform's `Math.sqrt` and `Math.acos`. */
  datatype Trig = Trig(sqrt: real -> real, acos: real -> real)

  /** `sqrt` yields the non-negative square root of every non-negative number. */
  ghost predicate IsSqrt(sqrt: real -> real) {
    forall x: real :: 0.0 <= x ==> 0.0 <= sqrt(x) && sqrt(x) * sqrt(x) == x
  }

  /**
   * `acos` maps the open interval (-1, 1) into the open interval (0, Pi):
   * the only fact about the arc cosine any proof here relies on. `Pi` is the
   * decimal that `Math.PI` prints as, slightly below the real pi, so the
   * exact arc cosine of a cosine very close to -1 does not satisfy this; the
   * double `Math.acos` does.
   */
  ghost predicate IsAcos(acos: real -> real) {
    forall x: real :: -1.0 < x < 1.0 ==> 0.0 < acos(x) < Pi
  }

  function Dot(u: Vector, v: Vector): real {
    u.x * v.x + u.y * v.y
  }

  function Magnitude(v: Vector, trig: Trig): real {
    trig.sqrt(Dot(v, v))
  }

  lemma MagnitudePositive(v: Vector, trig: Trig)
    requires IsSqrt(trig.sqrt) && v != Zero
    ensures Dot(v, v) > 0.0
    ensures Magnitude(v, trig) > 0.0 && Mul(Magnitude(v, trig), Magnitude(v, trig)) == Dot(v, v)
  {
    SquareSign(v.x);
    SquareSign(v.y);
    assert Dot(v, v) == Mul(v.x, v.x) + Mul(v.y, v.y);
    var m := Magnitude(v, trig);
    assert m >= 0.0 && Mul(m, m) == Dot(v, v);
  }

  /** Lagrange's identity in the plane: |u|^2 |v|^2 - (u . v)^2 == det(u, v)^2. */
  lemma LagrangeIdentity(u: Vector, v: Vector)
    ensures Mul(Dot(u, u), Dot(v, v)) - Mul(Dot(u, v), Dot(u, v)) == Mul(Det(u, v), Det(u, v))
  {
  }

  lemma DotScaled(u: Vector, v: Vector, k: real)
    ensures Dot(Scaled(u, k), Scaled(v, k)) == Mul(Mul(k, k), Dot(u, v))
  {
  }

  /** The square root commutes with a positive scale factor. */
  lemma SqrtOfScaled(trig: Trig, k: real, x: real)
    requires IsSqrt(trig.sqrt) && k > 0.0 && x >= 0.0
    ensures trig.sqrt(Mul(Mul(k, k), x)) == Mul(k, trig.sqrt(x))
  {
    SquareSign(k);
    MulNonNegative(Mul(k, k), x);
    var s, r := trig.sqrt(Mul(Mul(k, k), x)), Mul(k, trig.sqrt(x));
    assert s >= 0.0 && Mul(s, s) == Mul(Mul(k, k), x);
    MulNonNegative(k, trig.sqrt(x));
    assert Mul(r, r) == Mul(Mul(k, k), Mul(trig.sqrt(x), trig.sqrt(x)));
    SquareInjective(s, r);
  }

  /**
   * The clamp step `Math.max(-1, Math.min(1, cosAngle))`: a value in
   * [-1, 1] that is the input itself whenever the input is in range.
   */
  function Clamp(cosAngle: real): (r: real)
    ensures -1.0 <= r <= 1.0
    ensures -1.0 <= cosAngle <= 1.0 ==> r == cosAngle
    ensures cosAngle > 1.0 ==> r == 1.0
    ensures cosAngle < -1.0 ==> r == -1.0
  {
    Max(-1.0, Min(1.0, cosAngle))
  }

  /**
   * The cosine of the angle between two non-zero vectors, before clamping:
   * it has the sign of their dot product.
   */
  function Cosine(v1: Vector, v2: Vector, trig: Trig): (cosAngle: real)
    requires IsSqrt(trig.sqrt) && v1 != Zero && v2 != Zero
    ensures cosAngle > 0.0 <==> Dot(v1, v2) > 0.0
    ensures cosAngle < 0.0 <==> Dot(v1, v2) < 0.0
  {
    MagnitudePositive(v1, trig);
    MagnitudePositive(v2, trig);
    MulPositive(Magnitude(v1, trig), Magnitude(v2, trig));
    Dot(v1, v2) / Mul(Magnitude(v1, trig), Magnitude(v2, trig))
  }

  /**
   * Over exact reals the cosine never leaves [-1, 1] (Cauchy-Schwarz), so the
   * clamp only guards against rounding in doubles. Two vectors that are not
   * parallel have a cosine strictly inside (-1, 1).
   */
  lemma CosineWithinUnitInterval(v1: Vector, v2: Vector, trig: Trig)
    requires IsSqrt(trig.sqrt) && v1 != Zero && v2 != Zero
    ensures -1.0 <= Cosine(v1, v2, trig) <= 1.0
    ensures Det(v1, v2) != 0.0 ==> -1.0 < Cosine(v1, v2, trig) < 1.0
  {
    MagnitudePositive(v1, trig);
    MagnitudePositive(v2, trig);
    var d, m1, m2 := Dot(v1, v2), Magnitude(v1, trig), Magnitude(v2, trig);
    LagrangeIdentity(v1, v2);
    BoundByRoots(Dot(v1, v1), Dot(v2, v2), d, Det(v1, v2), m1, m2);
    QuotientWithinUnit(d, Mul(m1, m2));
  }

  /**
   * `calculateAngleBetweenVectors`: the arc cosine of the clamped cosine, in
   * degrees. The clamp never changes an exact cosine.
   */
  function AngleBetweenVectors(v1: Vector, v2: Vector, trig: Trig): (angle: real)
    requires IsSqrt(trig.sqrt) && v1 != Zero && v2 != Zero
    ensures angle == trig.acos(Cosine(v1, v2, trig)) * (180.0 / Pi)
  {
    CosineWithinUnitInterval(v1, v2, trig);
    trig.acos(Clamp(Cosine(v1, v2, trig))) * (180.0 / Pi)
  }

  /** Perpendicular vectors have cosine zero. */
  lemma PerpendicularCosineIsZero(v1: Vector, v2: Vector, trig: Trig)
    requires IsSqrt(trig.sqrt) && v1 != Zero && v2 != Zero && Dot(v1, v2) == 0.0
    ensures Cosine(v1, v2, trig) == 0.0
  {
    MagnitudePositive(v1, trig);
    MagnitudePositive(v2, trig);
    MulPositive(Magnitude(v1, trig), Magnitude(v2, trig));
  }

  /** The angle between two vectors that are not parallel lies strictly between 0 and 180 degrees. */
  lemma AngleBetweenNonParallelInRange(v1: Vector, v2: Vector, trig: Trig)
    requires IsSqrt(trig.sqrt) && IsAcos(trig.acos) && v1 != Zero && v2 != Zero && Det(v1, v2) != 0.0
    ensures InRange(AngleBetweenVectors(v1, v2, trig))
  {
    CosineWithinUnitInterval(v1, v2, trig);
    var a := trig.acos(Cosine(v1, v2, trig));
    assert 0.0 < a < Pi;
    assert a * (180.0 / Pi) < Pi * (180.0 / Pi);
  }

  /** The angle does not depend on the order of the two vectors. */
  lemma AngleBetweenVectorsSymmetric(v1: Vector, v2: Vector, trig: Trig)
    requires IsSqrt(trig.sqrt) && v1 != Zero && v2 != Zero
    ensures AngleBetweenVectors(v1, v2, trig) == AngleBetweenVectors(v2, v1, trig)
  {
  }

  /** Scaling both vectors by the same positive factor leaves the angle unchanged. */
  lemma AngleScaleInvariant(v1: Vector, v2: Vector, k: real, trig: Trig)
    requires IsSqrt(trig.sqrt) && v1 != Zero && v2 != Zero && k > 0.0
    ensures Scaled(v1, k) != Zero && Scaled(v2, k) != Zero
    ensures AngleBetweenVectors(Scaled(v1, k), Scaled(v2, k), trig) == AngleBetweenVectors(v1, v2, trig)
  {
    var w1, w2 := Scaled(v1, k), Scaled(v2, k);
    if v1.x != 0.0 { MulNonZero(k, v1.x); } else { MulNonZero(k, v1.y); }
    if v2.x != 0.0 { MulNonZero(k, v2.x); } else { MulNonZero(k, v2.y); }
    MagnitudePositive(v1, trig);
    MagnitudePositive(v2, trig);
    var m1, m2 := Magnitude(v1, trig), Magnitude(v2, trig);
    DotScaled(v1, v1, k);
    DotScaled(v2, v2, k);
    DotScaled(v1, v2, k);
    SqrtOfScaled(trig, k, Dot(v1, v1));
    SqrtOfScaled(trig, k, Dot(v2, v2));
    assert Magnitude(w1, trig) == Mul(k, m1) && Magnitude(w2, trig) == Mul(k, m2);
    ProductOfScaled(k, m1, m2);
    SquareSign(k);
    MulPositive(m1, m2);
    QuotientCancel(Dot(v1, v2), Mul(m1, m2), Mul(k, k));
    assert Cosine(w1, w2, trig) == Mul(Mul(k, k), Dot(v1, v2)) / Mul(Mul(k, k), Mul(m1, m2));
  }

  /**
   * The angle at each vertex, spelled out per label: the vectors to the other
   * two vertices, taken in A, B, C order.
   */
  function AngleAt(t: Triangle, l: Label, trig: Trig): real
    requires IsSqrt(trig.sqrt) && Cross(t) != 0.0
  {
    NonDegenerateHasDistinctVertices(t);
    match l
    case A => AngleBetweenVectors(CreateVector(t.a, t.b), CreateVector(t.a, t.c), trig)
    case B => AngleBetweenVectors(CreateVector(t.b, t.a), CreateVector(t.b, t.c), trig)
    case C => AngleBetweenVectors(CreateVector(t.c, t.a), CreateVector(t.c, t.b), trig)
  }

  /**
   * Every angle of a non-degenerate triangle lies strictly between 0 and 180
   * degrees: at each vertex the two edge vectors span the triangle's cross
   * product, up to sign.
   */
  lemma AnglesOfNonDegenerateTriangleInRange(t: Triangle, trig: Trig)
    requires IsSqrt(trig.sqrt) && IsAcos(trig.acos) && Cross(t) != 0.0
    ensures forall l: Label :: InRange(AngleAt(t, l, trig))
  {
    NonDegenerateHasDistinctVertices(t);
    assert Det(CreateVector(t.b, t.a), CreateVector(t.b, t.c)) == -Cross(t);
    assert Det(CreateVector(t.c, t.a), CreateVector(t.c, t.b)) == Cross(t);
    AngleBetweenNonParallelInRange(CreateVector(t.a, t.b), CreateVector(t.a, t.c), trig);
    AngleBetweenNonParallelInRange(CreateVector(t.b, t.a), CreateVector(t.b, t.c), trig);
    AngleBetweenNonParallelInRange(CreateVector(t.c, t.a), CreateVector(t.c, t.b), trig);
  }

  /** An angle set has every vertex label, and so exactly A, B and C, as keys. */
  predicate IsAngleSet(angles: map<Label, real>) {
    forall l: Label :: l in angles
  }

  /** `vertices.filter(v => v !== vertex)`: the labels other than `v`, order kept. */
  function Without(s: seq<Label>, v: Label): (r: seq<Label>)
    ensures |r| <= |s|
    ensures forall x :: x in r <==> x in s && x != v
  {
    if s == [] then []
    else if s[0] == v then Without(s[1..], v)
    else [s[0]] + Without(s[1..], v)
  }

  /** The two other labels of each vertex, in A, B, C order. */
  lemma OtherVertices(v: Label)
    ensures Without(Vertices, v) == match v
      case A => [B, C]
      case B => [A, C]
      case C => [A, B]
  {
  }

  /**
   * `calculateAngles`: fills the angle map vertex by vertex. The result has
   * exactly the keys A, B, C, and each entry is the angle at that vertex.
   */
  method CalculateAngles(t: Triangle, trig: Trig) returns (angles: map<Label, real>)
    requires IsSqrt(trig.sqrt) && Cross(t) != 0.0
    ensures IsAngleSet(angles)
    ensures forall l :: angles[l] == AngleAt(t, l, trig)
  {
    NonDegenerateHasDistinctVertices(t);
    angles := map[];
    for i := 0 to |Vertices|
      invariant forall l :: l in angles <==> Index(l) < i
      invariant forall l :: l in angles ==> angles[l] == AngleAt(t, l, trig)
    {
      var vertex := Vertices[i];
      assert Index(vertex) == i;
      var currentPoint := t.Vertex(vertex);
      var otherPoints := Without(Vertices, vertex);
      OtherVertices(vertex);
      var vector1 := CreateVector(currentPoint, t.Vertex(otherPoints[0]));
      var vector2 := CreateVector(currentPoint, t.Vertex(otherPoints[1]));
      angles := angles[vertex := AngleBetweenVectors(vector1, vector2, trig)];
    }
    assert forall l :: l in angles;
  }

  function Sum(angles: map<Label, real>): real
    requires IsAngleSet(angles)
  {
    angles[A] + angles[B] + angles[C]
  }

  predicate InRange(angle: real) {
    0.0 < angle < 180.0
  }

  /** What an angle set of a real triangle looks like: sum near 180, every angle strictly inside (0, 180). */
  predicate AnglesPlausible(angles: map<Label, real>)
    requires IsAngleSet(angles)
  {
    Abs(Sum(angles) - 180.0) <= Tolerance && forall l :: InRange(angles[l])
  }

  /** Outcome of `validateAngles`, carrying what its warnings report. */
  datatype Verdict = Plausible | SumOff(sum: real) | OutOfRange(vertex: Label, angle: real)

  /**
   * `validateAngles`: first the sum, then each entry in insertion order, stopping
   * at the first angle outside (0, 180).
   */
  method ValidateAngles(angles: map<Label, real>) returns (verdict: Verdict)
    requires IsAngleSet(angles)
    ensures verdict.Plausible? <==> AnglesPlausible(angles)
    ensures verdict.SumOff? <==> Abs(Sum(angles) - 180.0) > Tolerance
    ensures verdict.SumOff? ==> verdict.sum == Sum(angles)
    ensures verdict.OutOfRange? ==>
      verdict.angle == angles[verdict.vertex] && !InRange(verdict.angle) &&
      forall l :: Index(l) < Index(verdict.vertex) ==> InRange(angles[l])
  {
    var sum := angles[A] + angles[B] + angles[C];
    if Abs(sum - 180.0) > Tolerance {
      return SumOff(sum);
    }
    for i := 0 to |Vertices|
      invariant forall l :: Index(l) < i ==> InRange(angles[l])
    {
      var vertex := Vertices[i];
      assert Index(vertex) == i;
      var angle := angles[vertex];
      if angle <= 0.0 || angle >= 180.0 {
        return OutOfRange(vertex, angle);
      }
    }
    return Plausible;
  }
}
