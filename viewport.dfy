/**
 * Fitting a triangle into the canvas (`scalePointsToCanvas` of
 * src/js/display.js). The canvas size, which the source reads from the
 * canvas element, is a parameter.
 */
module Viewport {
  import opened Arith
  import opened Geometry

  /** Margin kept free on every side of the canvas. */
  const Padding: real := 50.0

  /** An axis-aligned box: the bounding box of a triangle. */
  datatype Box = Box(minX: real, maxX: real, minY: real, maxY: real) {
    function RangeX(): real { maxX - minX }

    function RangeY(): real { maxY - minY }

    function Centre(): Point { Point((minX + maxX) / 2.0, (minY + maxY) / 2.0) }

    predicate Contains(p: Point) {
      minX <= p.x <= maxX && minY <= p.y <= maxY
    }
  }

  /** The smallest box holding the three vertices. */
  function BoundingBox(t: Triangle): (box: Box)
    ensures forall l: Label :: box.Contains(t.Vertex(l))
    ensures exists l: Label :: t.Vertex(l).x == box.minX
    ensures exists l: Label :: t.Vertex(l).x == box.maxX
    ensures exists l: Label :: t.Vertex(l).y == box.minY
    ensures exists l: Label :: t.Vertex(l).y == box.maxY
  {
    var box := Box(Min3(t.a.x, t.b.x, t.c.x), Max3(t.a.x, t.b.x, t.c.x),
                   Min3(t.a.y, t.b.y, t.c.y), Max3(t.a.y, t.b.y, t.c.y));
    assert t.Vertex(A) == t.a && t.Vertex(B) == t.b && t.Vertex(C) == t.c;
    box
  }

  /** The bounding box has a positive width and height, so both scale factors exist. */
  predicate HasExtent(t: Triangle) {
    BoundingBox(t).RangeX() > 0.0 && BoundingBox(t).RangeY() > 0.0
  }

  /** Room left for the drawing along an axis of `size` pixels. */
  function Room(size: nat): real { size as real - 2.0 * Padding }

  /**
   * The largest factor that fits the box into the padded canvas: the box
   * scaled by it fits both ways and fills at least one of them exactly.
   */
  function ScaleFactor(box: Box, width: nat, height: nat): (scale: real)
    requires box.RangeX() > 0.0 && box.RangeY() > 0.0
    ensures Mul(scale, box.RangeX()) <= Room(width)
    ensures Mul(scale, box.RangeY()) <= Room(height)
    ensures Mul(scale, box.RangeX()) == Room(width) || Mul(scale, box.RangeY()) == Room(height)
    ensures Room(width) >= 0.0 && Room(height) >= 0.0 ==> scale >= 0.0
    ensures Room(width) > 0.0 && Room(height) > 0.0 ==> scale > 0.0
  {
    var scaleX := Room(width) / box.RangeX();
    var scaleY := Room(height) / box.RangeY();
    assert Mul(scaleX, box.RangeX()) == Room(width);
    assert Mul(scaleY, box.RangeY()) == Room(height);
    MulMonotone(Min(scaleX, scaleY), scaleX, box.RangeX());
    MulMonotone(Min(scaleX, scaleY), scaleY, box.RangeY());
    Min(scaleX, scaleY)
  }

  /** One coordinate: offset from the box centre, scaled, around the canvas centre. */
  function Place(v: real, canvasCentre: real, boxCentre: real, scale: real): real {
    canvasCentre + (v - boxCentre) * scale
  }

  /**
   * One vertex of `scalePointsToCanvas`: offset from the box centre, scaled,
   * placed around the canvas centre. The box centre lands on the canvas
   * centre, and a positive scale keeps each side of the centre.
   */
  function MapPoint(p: Point, box: Box, scale: real, width: nat, height: nat): (q: Point)
    ensures p == box.Centre() ==> q == Point(width as real / 2.0, height as real / 2.0)
    ensures scale > 0.0 ==> (p.x < box.Centre().x <==> q.x < width as real / 2.0)
    ensures scale > 0.0 ==> (p.y < box.Centre().y <==> q.y < height as real / 2.0)
  {
    var q := Point(Place(p.x, width as real / 2.0, box.Centre().x, scale),
                   Place(p.y, height as real / 2.0, box.Centre().y, scale));
    if scale > 0.0 then
      MulSign(scale, p.x - box.Centre().x);
      MulSign(scale, p.y - box.Centre().y);
      q
    else
      q
  }

  /** The point lies inside the canvas, at least `Padding` away from every edge. */
  predicate InsidePadded(p: Point, width: nat, height: nat) {
    Padding <= p.x <= width as real - Padding && Padding <= p.y <= height as real - Padding
  }

  /**
   * `scalePointsToCanvas`: every vertex is mapped by the same scale and
   * centring. When the canvas is at least twice the padding both ways, the
   * result lies inside the padded canvas.
   */
  function ScalePointsToCanvas(t: Triangle, width: nat, height: nat): (r: Triangle)
    requires HasExtent(t)
    ensures width >= 100 && height >= 100 ==> forall l: Label :: InsidePadded(r.Vertex(l), width, height)
  {
    var box := BoundingBox(t);
    var scale := ScaleFactor(box, width, height);
    var r := Triangle(MapPoint(t.a, box, scale, width, height),
                      MapPoint(t.b, box, scale, width, height),
                      MapPoint(t.c, box, scale, width, height));
    if width >= 100 && height >= 100 then
      MappedInsidePadded(t, width, height, r);
      r
    else
      r
  }

  /** The factor `ScalePointsToCanvas` uses for `t`. */
  function ScaleOf(t: Triangle, width: nat, height: nat): real
    requires HasExtent(t)
  {
    ScaleFactor(BoundingBox(t), width, height)
  }

  /** Placing a value of [lo, hi] around the middle of that range stays within half the room. */
  lemma PlaceWithin(v: real, lo: real, hi: real, scale: real, centre: real, room: real)
    requires lo <= v <= hi && scale >= 0.0 && Mul(scale, hi - lo) <= room
    ensures centre - room / 2.0 <= Place(v, centre, (lo + hi) / 2.0, scale) <= centre + room / 2.0
  {
    var offset := v - (lo + hi) / 2.0;
    MulMonotone(offset, (hi - lo) / 2.0, scale);
    MulMonotone(-(hi - lo) / 2.0, offset, scale);
    assert Mul((hi - lo) / 2.0, scale) == Mul(scale, hi - lo) / 2.0;
    assert Mul(-(hi - lo) / 2.0, scale) == -Mul(scale, hi - lo) / 2.0;
    assert Place(v, centre, (lo + hi) / 2.0, scale) == centre + Mul(offset, scale);
  }

  lemma MappedInsidePadded(t: Triangle, width: nat, height: nat, r: Triangle)
    requires HasExtent(t) && width >= 100 && height >= 100
    requires forall l: Label :: r.Vertex(l) == MapPoint(t.Vertex(l), BoundingBox(t), ScaleOf(t, width, height), width, height)
    ensures forall l: Label :: InsidePadded(r.Vertex(l), width, height)
  {
    var box, scale := BoundingBox(t), ScaleOf(t, width, height);
    forall l: Label
      ensures InsidePadded(r.Vertex(l), width, height)
    {
      var p := t.Vertex(l);
      assert box.Contains(p);
      PlaceWithin(p.x, box.minX, box.maxX, scale, width as real / 2.0, Room(width));
      PlaceWithin(p.y, box.minY, box.maxY, scale, height as real / 2.0, Room(height));
    }
  }

  /** Each mapped vertex is the image of the original vertex with the same label. */
  lemma MapsVertexByLabel(t: Triangle, width: nat, height: nat, l: Label)
    requires HasExtent(t)
    ensures ScalePointsToCanvas(t, width, height).Vertex(l)
         == MapPoint(t.Vertex(l), BoundingBox(t), ScaleOf(t, width, height), width, height)
  {
  }

  /**
   * Locality: two triangles with the same bounding box and the same vertex
   * at label `l` are mapped to the same point at `l`.
   */
  lemma MappedVertexDependsOnSameLabel(t1: Triangle, t2: Triangle, width: nat, height: nat, l: Label)
    requires HasExtent(t1) && BoundingBox(t1) == BoundingBox(t2) && t1.Vertex(l) == t2.Vertex(l)
    ensures HasExtent(t2)
    ensures ScalePointsToCanvas(t1, width, height).Vertex(l) == ScalePointsToCanvas(t2, width, height).Vertex(l)
  {
    MapsVertexByLabel(t1, width, height, l);
    MapsVertexByLabel(t2, width, height, l);
  }

  /** A valid triangle has a bounding box of positive width and height. */
  lemma ValidImpliesExtent(t: Triangle)
    requires IsValidTriangle(t)
    ensures HasExtent(t)
  {
  }

  /** The centre of the bounding box goes to the centre of the canvas. */
  lemma BoxCentreMapsToCanvasCentre(t: Triangle, width: nat, height: nat)
    requires HasExtent(t)
    ensures MapPoint(BoundingBox(t).Centre(), BoundingBox(t), ScaleOf(t, width, height), width, height)
         == Point(width as real / 2.0, height as real / 2.0)
  {
  }

  /**
   * The mapping is uniform: the vector between two mapped vertices is the
   * original vector scaled by the common factor.
   */
  lemma MappingIsUniform(t: Triangle, width: nat, height: nat, from: Label, to: Label)
    requires HasExtent(t)
    ensures CreateVector(ScalePointsToCanvas(t, width, height).Vertex(from), ScalePointsToCanvas(t, width, height).Vertex(to))
         == Scaled(CreateVector(t.Vertex(from), t.Vertex(to)), ScaleOf(t, width, height))
  {
    MapsVertexByLabel(t, width, height, from);
    MapsVertexByLabel(t, width, height, to);
    MapPointDifference(t.Vertex(from), t.Vertex(to), BoundingBox(t), ScaleOf(t, width, height), width, height);
  }

  /** Mapping turns the vector between two points into the scaled vector. */
  lemma MapPointDifference(p: Point, q: Point, box: Box, scale: real, width: nat, height: nat)
    ensures CreateVector(MapPoint(p, box, scale, width, height), MapPoint(q, box, scale, width, height))
         == Scaled(CreateVector(p, q), scale)
  {
  }

  /** The cross product of the mapped triangle is the original one times the squared scale. */
  lemma CrossScales(t: Triangle, width: nat, height: nat)
    requires HasExtent(t)
    ensures Cross(ScalePointsToCanvas(t, width, height))
         == Mul(Mul(ScaleOf(t, width, height), ScaleOf(t, width, height)), Cross(t))
  {
    var r, s := ScalePointsToCanvas(t, width, height), ScaleOf(t, width, height);
    var u, v := CreateVector(t.a, t.b), CreateVector(t.a, t.c);
    MappingIsUniform(t, width, height, A, B);
    MappingIsUniform(t, width, height, A, C);
    assert CreateVector(r.a, r.b) == Scaled(u, s);
    assert CreateVector(r.a, r.c) == Scaled(v, s);
    DetScaled(u, v, s);
  }

  /** Scaling both vectors by `s` scales their determinant by `s` squared. */
  lemma DetScaled(u: Vector, v: Vector, s: real)
    ensures Det(Scaled(u, s), Scaled(v, s)) == Mul(Mul(s, s), Det(u, v))
  {
  }

  /**
   * On a canvas larger than twice the padding both ways the scale is
   * positive, so the orientation of the triangle is kept and so is its
   * (non-)degeneracy.
   */
  lemma OrientationPreserved(t: Triangle, width: nat, height: nat)
    requires HasExtent(t) && width > 100 && height > 100
    ensures var r := ScalePointsToCanvas(t, width, height);
            (Cross(r) > 0.0 <==> Cross(t) > 0.0) && (Cross(r) < 0.0 <==> Cross(t) < 0.0)
  {
    var s := ScaleOf(t, width, height);
    CrossScales(t, width, height);
    SquareSign(s);
    MulSign(Mul(s, s), Cross(t));
  }

  /** Placing with a positive scale keeps the order of values. */
  lemma PlaceMonotone(v: real, w: real, canvasCentre: real, boxCentre: real, scale: real)
    requires v <= w && scale > 0.0
    ensures Place(v, canvasCentre, boxCentre, scale) <= Place(w, canvasCentre, boxCentre, scale)
  {
    MulMonotone(v - boxCentre, w - boxCentre, scale);
  }

  /** An increasing placement commutes with the minimum and maximum of three values. */
  lemma PlaceExtrema(p: real, q: real, r: real, canvasCentre: real, boxCentre: real, scale: real)
    requires scale > 0.0
    ensures var f := (v: real) => Place(v, canvasCentre, boxCentre, scale);
            Min3(f(p), f(q), f(r)) == f(Min3(p, q, r)) && Max3(f(p), f(q), f(r)) == f(Max3(p, q, r))
  {
    var lo, hi := Min3(p, q, r), Max3(p, q, r);
    PlaceMonotone(lo, p, canvasCentre, boxCentre, scale);
    PlaceMonotone(lo, q, canvasCentre, boxCentre, scale);
    PlaceMonotone(lo, r, canvasCentre, boxCentre, scale);
    PlaceMonotone(p, hi, canvasCentre, boxCentre, scale);
    PlaceMonotone(q, hi, canvasCentre, boxCentre, scale);
    PlaceMonotone(r, hi, canvasCentre, boxCentre, scale);
  }

  /** A box with its corners mapped like the vertices. */
  function PlacedBox(box: Box, scale: real, width: nat, height: nat): Box {
    Box(Place(box.minX, width as real / 2.0, box.Centre().x, scale),
        Place(box.maxX, width as real / 2.0, box.Centre().x, scale),
        Place(box.minY, height as real / 2.0, box.Centre().y, scale),
        Place(box.maxY, height as real / 2.0, box.Centre().y, scale))
  }

  /** The bounding box of the mapped triangle is the mapped bounding box. */
  lemma MappedBoundingBox(t: Triangle, width: nat, height: nat)
    requires HasExtent(t) && width > 100 && height > 100
    ensures BoundingBox(ScalePointsToCanvas(t, width, height))
         == PlacedBox(BoundingBox(t), ScaleOf(t, width, height), width, height)
  {
    var box, s := BoundingBox(t), ScaleOf(t, width, height);
    PlaceExtrema(t.a.x, t.b.x, t.c.x, width as real / 2.0, box.Centre().x, s);
    PlaceExtrema(t.a.y, t.b.y, t.c.y, height as real / 2.0, box.Centre().y, s);
  }

  /**
   * The drawing is centred on the canvas: the mapped bounding box has the
   * canvas centre as its centre, fits the room left by the padding and
   * fills it along at least one axis.
   */
  lemma MappedBoxCentredAndFitted(t: Triangle, width: nat, height: nat)
    requires HasExtent(t) && width > 100 && height > 100
    ensures var mapped := BoundingBox(ScalePointsToCanvas(t, width, height));
            && mapped.Centre() == Point(width as real / 2.0, height as real / 2.0)
            && 0.0 < mapped.RangeX() <= Room(width) && 0.0 < mapped.RangeY() <= Room(height)
            && (mapped.RangeX() == Room(width) || mapped.RangeY() == Room(height))
  {
    var box, s := BoundingBox(t), ScaleOf(t, width, height);
    MappedBoundingBox(t, width, height);
    var mapped := BoundingBox(ScalePointsToCanvas(t, width, height));
    PlaceSpan(box.minX, box.maxX, width as real / 2.0, s);
    PlaceSpan(box.minY, box.maxY, height as real / 2.0, s);
    MulPositive(s, box.RangeX());
    MulPositive(s, box.RangeY());
  }

  /**
   * Placing the ends of [lo, hi] around its middle gives a range of the
   * scaled length with `centre` as its middle.
   */
  lemma PlaceSpan(lo: real, hi: real, centre: real, scale: real)
    ensures Place(hi, centre, (lo + hi) / 2.0, scale) - Place(lo, centre, (lo + hi) / 2.0, scale) == Mul(scale, hi - lo)
    ensures (Place(lo, centre, (lo + hi) / 2.0, scale) + Place(hi, centre, (lo + hi) / 2.0, scale)) / 2.0 == centre
  {
  }

  /** A factor that keeps a positive amount within a bound the factor meets elsewhere is one. */
  lemma UnitFactor(k: real, x: real, y: real, roomX: real, roomY: real)
    requires 0.0 < x <= roomX && 0.0 < y <= roomY && (x == roomX || y == roomY)
    requires Mul(k, x) <= roomX && Mul(k, y) <= roomY && (Mul(k, x) == roomX || Mul(k, y) == roomY)
    ensures k == 1.0
  {
    if k > 1.0 {
      MulPositive(k - 1.0, if x == roomX then x else y);
    } else if k < 1.0 {
      MulPositive(1.0 - k, if Mul(k, x) == roomX then x else y);
    }
  }

  /**
   * Fitting an already fitted triangle changes nothing: the scale of the
   * second pass is one and its centring is the identity.
   */
  lemma ScalingIsIdempotent(t: Triangle, width: nat, height: nat)
    requires HasExtent(t) && width > 100 && height > 100
    ensures HasExtent(ScalePointsToCanvas(t, width, height))
    ensures var r := ScalePointsToCanvas(t, width, height);
            ScalePointsToCanvas(r, width, height) == r
  {
    var r := ScalePointsToCanvas(t, width, height);
    MappedBoxCentredAndFitted(t, width, height);
    var mapped := BoundingBox(r);
    var s := ScaleOf(r, width, height);
    UnitFactor(s, mapped.RangeX(), mapped.RangeY(), Room(width), Room(height));
    assert s == 1.0;
    forall l: Label
      ensures ScalePointsToCanvas(r, width, height).Vertex(l) == r.Vertex(l)
    {
      MapsVertexByLabel(r, width, height, l);
    }
  }
}
