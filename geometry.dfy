/**
 * Points, labelled triangles and the degeneracy test of the display page
 * (src/js/display.js). Coordinates are exact reals rather than doubles.
 */
module Geometry {

  /** A point or a vector in the plane: the source's `{ x, y }` objects. */
  datatype Point = Point(x: real, y: real)

  type Vector = Point

  const Zero: Vector := Point(0.0, 0.0)

  /** The three vertex labels; `Vertices` is the order the source lists them in. */
  datatype Label = A | B | C

  const Vertices: seq<Label> := [A, B, C]

  /** Position of a label in `Vertices`. */
  function Index(l: Label): (i: nat)
    ensures i < |Vertices| && Vertices[i] == l
  {
    match l
    case A => 0
    case B => 1
    case C => 2
  }

  /** The `points` object: one point per label. */
  datatype Triangle = Triangle(a: Point, b: Point, c: Point) {
    function Vertex(l: Label): Point {
      match l
      case A => a
      case B => b
      case C => c
    }
  }

  /** Tolerance of the degeneracy test. */
  const Epsilon: real := 0.001

  function Abs(x: real): real { if x < 0.0 then -x else x }

  function Min(x: real, y: real): real { if x <= y then x else y }

  function Max(x: real, y: real): real { if x >= y then x else y }

  /** `Math.min` of three numbers: a lower bound that is one of them. */
  function Min3(p: real, q: real, r: real): (m: real)
    ensures m <= p && m <= q && m <= r
    ensures m == p || m == q || m == r
  {
    Min(Min(p, q), r)
  }

  /** `Math.max` of three numbers: an upper bound that is one of them. */
  function Max3(p: real, q: real, r: real): (m: real)
    ensures m >= p && m >= q && m >= r
    ensures m == p || m == q || m == r
  {
    Max(Max(p, q), r)
  }

  /** The vector from `from` to `to` (the source's `createVector`). */
  function CreateVector(from: Point, to: Point): (v: Vector)
    ensures from.x + v.x == to.x && from.y + v.y == to.y
    ensures v == Zero <==> from == to
  {
    Point(to.x - from.x, to.y - from.y)
  }

  function Scaled(v: Vector, k: real): Vector {
    Point(k * v.x, k * v.y)
  }

  /** The 2D cross product (determinant) of two vectors. */
  function Det(u: Vector, v: Vector): real {
    u.x * v.y - u.y * v.x
  }

  /** Cross product of the edge vectors B - A and C - A. */
  function Cross(t: Triangle): real {
    Det(CreateVector(t.a, t.b), CreateVector(t.a, t.c))
  }

  /** The line a*x + b*y == c passes through p. */
  predicate OnLine(p: Point, a: real, b: real, c: real) {
    a * p.x + b * p.y == c
  }

  /** The three vertices lie on one common line (coincident points included). */
  ghost predicate Collinear(t: Triangle) {
    exists a: real, b: real, c: real ::
      (a != 0.0 || b != 0.0) && OnLine(t.a, a, b, c) && OnLine(t.b, a, b, c) && OnLine(t.c, a, b, c)
  }

  /**
   * `isValidTriangle`: the absolute cross product exceeds the tolerance.
   * In particular a valid triangle is never collinear.
   */
  function IsValidTriangle(t: Triangle): (valid: bool)
    ensures valid ==> !Collinear(t)
  {
    CollinearIffZeroCross(t);
    Abs(Cross(t)) > Epsilon
  }

  /** Geometric meaning of a vanishing cross product, in both directions. */
  lemma CollinearIffZeroCross(t: Triangle)
    ensures Collinear(t) <==> Cross(t) == 0.0
  {
    if Collinear(t) {
      var a: real, b: real, c: real :|
        (a != 0.0 || b != 0.0) && OnLine(t.a, a, b, c) && OnLine(t.b, a, b, c) && OnLine(t.c, a, b, c);
      LineThroughAllThree(t, a, b, c);
    }
    if Cross(t) == 0.0 {
      var u, v := CreateVector(t.a, t.b), CreateVector(t.a, t.c);
      if u != Zero {
        // the line through A and B
        var a, b := -u.y, u.x;
        var c := a * t.a.x + b * t.a.y;
        assert OnLine(t.b, a, b, c);
        assert a * t.c.x + b * t.c.y - c == Det(u, v);
        assert OnLine(t.c, a, b, c);
      } else if v != Zero {
        // A and B coincide: the line through A and C
        var a, b := -v.y, v.x;
        var c := a * t.a.x + b * t.a.y;
        assert t.b == t.a;
        assert OnLine(t.c, a, b, c);
      } else {
        // all three coincide: the vertical line through A
        assert t.b == t.a && t.c == t.a;
        assert OnLine(t.a, 1.0, 0.0, t.a.x);
      }
    }
  }

  /** A common line through all three vertices forces a zero cross product. */
  lemma LineThroughAllThree(t: Triangle, a: real, b: real, c: real)
    requires a != 0.0 || b != 0.0
    requires OnLine(t.a, a, b, c) && OnLine(t.b, a, b, c) && OnLine(t.c, a, b, c)
    ensures Cross(t) == 0.0
  {
    var u, v := CreateVector(t.a, t.b), CreateVector(t.a, t.c);
    assert a * u.x == -b * u.y;
    assert a * v.x == -b * v.y;
    calc {
      a * Det(u, v);
      (a * u.x) * v.y - u.y * (a * v.x);
      (-b * u.y) * v.y - u.y * (-b * v.y);
      0.0;
    }
    calc {
      b * Det(u, v);
      u.x * (b * v.y) - (b * u.y) * v.x;
      u.x * (-a * v.x) - (-a * u.x) * v.x;
      0.0;
    }
  }

  /**
   * Collinear or coincident points are rejected: the contrapositive of the
   * `ensures` of `IsValidTriangle`, stated on its own for callers. The
   * converse does not hold: a small or thin triangle that is not collinear
   * can still have an absolute cross product of at most `Epsilon`.
   */
  lemma CollinearIsInvalid(t: Triangle)
    requires Collinear(t)
    ensures !IsValidTriangle(t)
  {
    CollinearIffZeroCross(t);
  }

  /** A non-degenerate triangle has three distinct vertices. */
  lemma NonDegenerateHasDistinctVertices(t: Triangle)
    requires Cross(t) != 0.0
    ensures t.a != t.b && t.a != t.c && t.b != t.c
  {
  }
}
