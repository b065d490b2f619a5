/**
 * Loading the display page (src/js/display.js): read the stored points,
 * reject a degenerate triangle, otherwise fit it to the canvas, compute its
 * angles and check them. Storage, navigation and drawing are outside the
 * model; the stored points and the canvas size are parameters.
 */
module Display {
  import opened Geometry
  import opened Angles
  import opened Viewport

  datatype Option<T> = None | Some(value: T)

  /** What the page ends up showing. */
  datatype Page =
    | InputPage    // nothing stored: back to the input page
    | ErrorModal   // the stored points do not form a triangle
    | Drawn(scaled: Triangle, angles: map<Label, real>, verdict: Verdict)

  /**
   * Fitting a triangle to a canvas larger than twice the padding both ways
   * keeps it non-degenerate and keeps every angle: the page's angles,
   * computed on the fitted points, are those of the stored triangle. A
   * non-degenerate triangle always has a bounding box with extent, so the
   * fitting is defined.
   */
  lemma ScalingPreservesAngles(t: Triangle, width: nat, height: nat, trig: Trig)
    requires IsSqrt(trig.sqrt) && Cross(t) != 0.0 && width > 100 && height > 100
    ensures HasExtent(t)
    ensures Cross(ScalePointsToCanvas(t, width, height)) != 0.0
    ensures forall l: Label :: AngleAt(ScalePointsToCanvas(t, width, height), l, trig) == AngleAt(t, l, trig)
  {
    var r, s := ScalePointsToCanvas(t, width, height), ScaleOf(t, width, height);
    OrientationPreserved(t, width, height);
    assert s > 0.0;
    NonDegenerateHasDistinctVertices(t);
    forall from: Label, to: Label
      ensures CreateVector(r.Vertex(from), r.Vertex(to)) == Scaled(CreateVector(t.Vertex(from), t.Vertex(to)), s)
    {
      MappingIsUniform(t, width, height, from, to);
    }
    AngleScaleInvariant(CreateVector(t.a, t.b), CreateVector(t.a, t.c), s, trig);
    AngleScaleInvariant(CreateVector(t.b, t.a), CreateVector(t.b, t.c), s, trig);
    AngleScaleInvariant(CreateVector(t.c, t.a), CreateVector(t.c, t.b), s, trig);
    assert r.a == r.Vertex(A) && r.b == r.Vertex(B) && r.c == r.Vertex(C);
    assert t.a == t.Vertex(A) && t.b == t.Vertex(B) && t.c == t.Vertex(C);
  }

  /**
   * The page load: no stored points lead back to the input page, a
   * degenerate triangle to the error dialog, and any other triangle is
   * fitted to the canvas and drawn with its angles and their verdict.
   */
  method Load(stored: Option<Triangle>, width: nat, height: nat, trig: Trig) returns (page: Page)
    requires width > 100 && height > 100 && IsSqrt(trig.sqrt)
    ensures page == InputPage <==> stored.None?
    ensures page == ErrorModal <==> stored.Some? && !IsValidTriangle(stored.value)
    ensures page.Drawn? <==> stored.Some? && IsValidTriangle(stored.value)
    ensures page.Drawn? ==>
              && HasExtent(stored.value)
              && page.scaled == ScalePointsToCanvas(stored.value, width, height)
              && (forall l: Label :: InsidePadded(page.scaled.Vertex(l), width, height))
              && IsAngleSet(page.angles)
              && (forall l: Label :: page.angles[l] == AngleAt(stored.value, l, trig))
              && (page.verdict.Plausible? <==> AnglesPlausible(page.angles))
    ensures page.Drawn? && IsAcos(trig.acos) ==> !page.verdict.OutOfRange?
  {
    match stored
    case None =>
      page := InputPage;
    case Some(points) =>
      if !IsValidTriangle(points) {
        page := ErrorModal;
        return;
      }
      ValidImpliesExtent(points);
      var scaled := ScalePointsToCanvas(points, width, height);
      ScalingPreservesAngles(points, width, height, trig);
      var angles := CalculateAngles(scaled, trig);
      if IsAcos(trig.acos) {
        AnglesOfNonDegenerateTriangleInRange(scaled, trig);
      }
      var verdict := ValidateAngles(angles);
      page := Drawn(scaled, angles, verdict);
  }
}
