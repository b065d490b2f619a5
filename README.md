# Try-The-Triangle: geometry of the display page

This project models the geometry of the display page of Try-The-Triangle
(`src/js/display.js`). The page reads three labelled points A, B, C. It
rejects them when the absolute cross product of B−A and C−A is at most
0.001. That covers collinear and coincident points, and also small or thin
triangles of any shape. Otherwise it fits the
triangle into the canvas, computes its three interior angles and checks
them for plausibility.

Modules:

- `Geometry` (`geometry.dfy`): points, labelled triangles, the cross
  product and `isValidTriangle`. It proves that a zero cross product means
  exactly that the three points lie on one line. "Degenerate" in this
  project means a zero cross product. It is not the same as "invalid": the
  0.001 tolerance of `isValidTriangle` is not kept by fitting. For example,
  (0,0), (10⁶,0), (0,0.001) has cross product 1000 and is accepted. On a
  400 by 400 canvas it is scaled by 0.0003, and the fitted cross product is
  0.00009. The page never re-checks the fitted points, so this does not
  change what it shows.
- `Angles` (`angles.dfy`): `calculateAngleBetweenVectors` with its clamp,
  `calculateAngles` (a loop that fills a map) and `validateAngles` (a sum
  check and then a loop with an early exit). `Math.sqrt` and `Math.acos`
  arrive as a `Trig` parameter. The square root is constrained only by
  `IsSqrt`. The arc cosine is constrained only by `IsAcos`, and only where
  a lemma says so.
- `Viewport` (`viewport.dfy`): `scalePointsToCanvas`, with the canvas
  width and height as parameters and the padding of 50.
- `Display` (`display.dfy`): the page load. Nothing stored leads back to
  the input page. An invalid triangle leads to the error dialog. Any other
  triangle is fitted, measured and checked.
- `Examples` (`examples_model.dfy`): the right triangle (0,0), (4,0), (0,3),
  a collinear triple and a small triangle below the tolerance
  (`SmallTriangleRejected`), worked through the model, and the right
  triangle fitted to a 400 by 400 canvas (`FittedRightTriangle`).
- `Arith` (`arith.dfy`): facts about real products and quotients used by
  the proofs above.

Coordinates are exact reals. The source computes in doubles.

## Model

| member | source | states |
|---|---|---|
| Geometry.Min3 | src/js/display.js:132-134 | `Math.min(...xs)`: a lower bound of the three values that is one of them |
| Geometry.Max3 | src/js/display.js:133-135 | `Math.max(...xs)`: an upper bound of the three values that is one of them |
| Geometry.CreateVector | src/js/display.js:212-215 | the vector from `from` to `to`: added to `from` it gives `to`, and it is zero exactly when the two points coincide |
| Geometry.IsValidTriangle | src/js/display.js:62-72 | the absolute cross product of B−A and C−A exceeds 0.001, so an accepted triangle is never collinear |
| Geometry.CollinearIffZeroCross | src/js/display.js:67-71 | the cross product is 0 exactly when one line passes through all three points, coincident points included (both directions) |
| Geometry.LineThroughAllThree | src/js/display.js:64-70 | a line through A, B and C forces the cross product to 0 |
| Geometry.CollinearIsInvalid | src/js/display.js:62-72 | collinear or coincident points are rejected (the contrapositive of `IsValidTriangle`'s contract) |
| Geometry.NonDegenerateHasDistinctVertices | src/js/display.js:62-72 | a non-zero cross product implies three pairwise distinct vertices, so every edge vector has positive length |
| Angles.MagnitudePositive | src/js/display.js:241-242 | the magnitude of a non-zero vector is positive and squares to its dot product with itself |
| Angles.Clamp | src/js/display.js:248 | the clamped value lies in [−1, 1]; it is the input when the input is in range, 1 above the range and −1 below it |
| Angles.Cosine | src/js/display.js:238-245 | the dot product divided by the product of the two magnitudes, for non-zero vectors; it has the sign of the dot product |
| Angles.CosineWithinUnitInterval | src/js/display.js:245-248 | over exact reals the cosine already lies in [−1, 1] (Cauchy-Schwarz), so the clamp is a guard against rounding only; for vectors that are not parallel it lies strictly inside (−1, 1) |
| Angles.AngleBetweenVectors | src/js/display.js:236-252 | the angle is acos of the unclamped cosine times 180/π: the clamp never changes an exact cosine |
| Angles.PerpendicularCosineIsZero | src/js/display.js:238-245 | perpendicular non-zero vectors have cosine 0 |
| Angles.AngleBetweenNonParallelInRange | src/js/display.js:236-252 | when acos maps (−1, 1) into (0, Pi), Pi being the decimal 3.141592653589793 that `Math.PI` prints as, the angle between non-parallel vectors lies strictly between 0 and 180 degrees |
| Angles.AngleBetweenVectorsSymmetric | src/js/display.js:236-252 | the angle does not depend on the order of the two vectors |
| Angles.AngleScaleInvariant | src/js/display.js:236-252 | scaling both vectors by one positive factor leaves the angle unchanged |
| Angles.AnglesOfNonDegenerateTriangleInRange | src/js/display.js:221-230 | when acos maps (−1, 1) into (0, Pi), Pi being the decimal 3.141592653589793 that `Math.PI` prints as, in a non-degenerate triangle every angle lies strictly inside (0, 180), so the range test of `validateAngles` always passes |
| Angles.Without | src/js/display.js:223 | `vertices.filter(v => v !== vertex)`: exactly the labels other than `v`, never longer than the input |
| Angles.OtherVertices | src/js/display.js:219-223 | the other labels are [B, C], [A, C] and [A, B], in A, B, C order |
| Angles.CalculateAngles | src/js/display.js:210-234 | the result has exactly the keys A, B, C, and each entry is the angle at that vertex between the vectors to the other two vertices, taken in A, B, C order |
| Angles.ValidateAngles | src/js/display.js:75-93 | the result is `Plausible` exactly when the sum is within 0.1 of 180 and every angle is strictly inside (0, 180). `SumOff` is returned exactly when the sum is off, and it carries the sum. `OutOfRange` names the first angle, in A, B, C order, that is ≤ 0 or ≥ 180 |
| Viewport.BoundingBox | src/js/display.js:129-135 | the box holds all three vertices, and each of its four sides is reached by some vertex |
| Viewport.ScaleFactor | src/js/display.js:138-145 | the box scaled by the factor fits the room left by the padding along both axes and fills it along at least one; the factor is non-negative (positive) when that room is |
| Viewport.MapPoint | src/js/display.js:154-165 | a point offset from the box centre, scaled, and placed around the canvas centre: the box centre lands on the canvas centre, and a positive scale keeps each point on its side of the centre |
| Viewport.ScalePointsToCanvas | src/js/display.js:127-167 | on a canvas of at least 100 by 100, every mapped vertex lies inside the canvas at least 50 away from each edge |
| Viewport.PlaceWithin | src/js/display.js:155 | a coordinate of the box, placed around the canvas centre, stays within half the room of that centre |
| Viewport.MappedInsidePadded | src/js/display.js:138-166 | when w, h ≥ 100, every mapped x lies in [50, w−50] and every mapped y in [50, h−50] |
| Viewport.MapsVertexByLabel | src/js/display.js:153-166 | the result keeps the labels: the mapped vertex at l is the image of the original vertex at l |
| Viewport.MappedVertexDependsOnSameLabel | src/js/display.js:153-166 | given the same bounding box, a mapped vertex depends only on the original vertex with the same label |
| Viewport.ValidImpliesExtent | src/js/display.js:139-144 | a valid triangle has maxX−minX > 0 and maxY−minY > 0, so neither scale factor divides by zero |
| Viewport.BoxCentreMapsToCanvasCentre | src/js/display.js:148-151 | the bounding-box midpoint maps to (w/2, h/2) |
| Viewport.MapPointDifference | src/js/display.js:155-165 | the vector between two mapped points is the original vector times the scale |
| Viewport.MappingIsUniform | src/js/display.js:155-165 | the mapping is uniform: mapped(P)−mapped(Q) = scale·(P−Q) for every pair of vertices |
| Viewport.DetScaled | src/js/display.js:155-165 | scaling both vectors by s multiplies their determinant by s² |
| Viewport.CrossScales | src/js/display.js:155-165 | the cross product of the fitted triangle is scale² times the original cross product |
| Viewport.OrientationPreserved | src/js/display.js:143-165 | on a canvas larger than 100 by 100 the fitted triangle has the orientation of the original and has a zero cross product exactly when the original does; the 0.001 threshold of `isValidTriangle` is not kept |
| Viewport.PlaceMonotone | src/js/display.js:155 | placing with a positive scale keeps the order of coordinates |
| Viewport.PlaceExtrema | src/js/display.js:132-135 | placing with a positive scale commutes with the minimum and maximum of three coordinates |
| Viewport.MappedBoundingBox | src/js/display.js:129-165 | the bounding box of the fitted triangle is the original bounding box with its sides mapped |
| Viewport.PlaceSpan | src/js/display.js:148-155 | the ends of a range, placed around its middle, span the scaled length and have the canvas centre as their midpoint |
| Viewport.MappedBoxCentredAndFitted | src/js/display.js:143-151 | the fitted bounding box is centred on the canvas, fits the padded room both ways and fills it along one axis |
| Viewport.UnitFactor | src/js/display.js:143-145 | a factor that keeps two filled-or-fitting lengths within their room, filling one, is 1 |
| Viewport.ScalingIsIdempotent | src/js/display.js:127-167 | fitting an already fitted triangle changes nothing |
| Display.ScalingPreservesAngles | src/js/display.js:106-112 | a triangle with a non-zero cross product has a bounding box with extent; fitting keeps the triangle non-degenerate and keeps every angle, so the angles the page computes on the fitted points are those of the stored triangle |
| Display.Load | src/js/display.js:11-25 | nothing stored gives the input page, an invalid triangle the error dialog, and any other triangle is drawn (lines 95-125): fitted inside the padded canvas, with exactly the keys A, B, C, each the angle of the stored triangle, and a verdict that is `Plausible` exactly when the angles are plausible and never `OutOfRange` when acos maps (−1, 1) into (0, Pi), Pi being the decimal 3.141592653589793 that `Math.PI` prints as |
| Examples.RightTriangleIsValid | src/js/display.js:62-72 | (0,0), (4,0), (0,3) has cross product 12 and is accepted |
| Examples.CollinearTripleIsInvalid | src/js/display.js:62-72 | (0,0), (2,0), (4,0) has cross product 0 and is rejected |
| Examples.SmallTriangleRejected | src/js/display.js:62-72 | (0,0), (0.01,0), (0,0.01) is not collinear, yet its cross product is 0.0001 and it is rejected |
| Examples.RightTriangleHasRightAngleAtA | src/js/display.js:236-245 | the cosine at A of (0,0), (4,0), (0,3) is 0 |
| Examples.FittedRightTriangle | src/js/display.js:127-167 | on a 400 by 400 canvas, (0,0), (4,0), (0,3) is scaled by 75 and lands at (50, 87.5), (350, 87.5), (50, 312.5) |

## Left out

- Geometry.IsValidTriangle: the model proves only that an accepted triangle is not collinear. The converse, "not collinear implies accepted", does not hold for the code as written. The fixed 0.001 bound on the cross product, which is twice the area, also rejects small triangles of any shape (`Examples.SmallTriangleRejected`). The comment at line 61 speaks of collinearity only. The model keeps the code's threshold.

- Drawing is not modelled: the canvas transforms (lines 100-102, 124), `drawTriangleShape`, `drawVertex`, `drawAngles`, `drawAngleArc` and `drawAngleLabels`. Neither are the buttons, the modal dialog's handlers or page navigation. These are DOM effects with no geometric result. `AngleAt` spells out the per-vertex vector table that `drawAngles` (lines 254-265) repeats.
- `sessionStorage` and `JSON.parse` are not modelled. The stored value is an `Option<Triangle>`. An empty string, which the source also treats as absent, is `None`. Malformed JSON and missing fields are not modelled.
- `console.warn` is not modelled. `ValidateAngles` returns a `Verdict` carrying what the warnings report. `Plausible` corresponds to the source's `true`.
- Floating point is not modelled. Coordinates are exact reals, and rounding, NaN and Infinity do not arise. The tolerances 0.001 and 0.1 and the constant π are kept as written.
- `Math.sqrt` is only assumed to return the non-negative square root (`IsSqrt`). `Math.acos` is uninterpreted, except that the range lemmas and `Display.Load`'s last clause assume it maps (−1, 1) into (0, Pi), Pi being the decimal 3.141592653589793 that `Math.PI` prints as (`IsAcos`). The angle-sum check expects the three angles to sum to 180 ± 0.1. That sum is not proved: it needs trigonometric identities the model does not state.
- Angles.AnglesOfNonDegenerateTriangleInRange: like `Angles.AngleBetweenNonParallelInRange` and the last clause of `Display.Load`, it holds for an arc cosine that stays below `Pi`, the decimal 3.141592653589793 that `Math.PI` prints as, as `Math.acos` does on doubles. The exact arc cosine does not: (−10⁸, 0), (0, 0), (10⁸, 2·10⁻¹¹) has cross product 0.002 and is accepted. Its cosine at B lies within 10⁻³⁶ of −1, and the exact arc cosine there exceeds `Pi`. Over exact reals its angle at B would be above 180 and the verdict `OutOfRange(B)`. In doubles the fitted points are collinear, and `validateAngles` fails at A (line 86).
- Angles.AngleBetweenVectors: requires both vectors to be non-zero. The source then divides by zero and returns NaN. That case cannot occur from `calculateAngles` on an accepted triangle (`NonDegenerateHasDistinctVertices`).
- Angles.AngleBetweenVectors: its contract says the clamp is the identity. That holds over exact reals only. In doubles the clamp can matter.
- Viewport.ScalePointsToCanvas: requires a bounding box of positive width and height. The source divides by zero here, and the model does not cover the Infinity/NaN results. The page calls it only for accepted triangles, which always have such a box (`ValidImpliesExtent`).
- Display.Load: requires a canvas wider and taller than 100. The canvas size comes from markup that is not part of this model. On a smaller canvas the scale can be zero or negative, which would flip or collapse the drawing.
- `Object.entries(angles)` in `validateAngles` is modelled as visiting A, B, C. That is the insertion order `calculateAngles` gives the keys.
- src/js/script.js (the input page and its check that treats a coordinate of 0 as missing) is not part of this model.
- The padding is fixed at 50, as in the code; the fitting step is not parameterised over it.
