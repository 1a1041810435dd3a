# GameEngine-SceneGraph collision kernel in Dafny

This project models the collision-geometry kernel and the scene-tree
bookkeeping of the C++ engine GameEngine-SceneGraph. It proves
properties of that model with the Dafny verifier. It covers:

- the point, segment, triangle, plane and oriented-box queries
  (`GeometryUtils`, `Line`, `Triangle`, `Plane`);
- the four bounding volumes (sphere, capsule, oriented box and
  axis-aligned box) with their `intersectsVolume`, `enclosesVolume` and
  `isEnclosedByVolume` predicates, and the hand-over to the other operand
  with the question turned round;
- `CollisionDetector`: the contact-producing intersection tests, the
  15-axis separating-axis test with its contact choice, the enclosure
  tests and both dispatchers;
- the `Contact` and `SceneObject` records, the child-list edits and the
  id counter of `SceneUtils`, and the depth-first name lookup of
  `SceneGraph`.

Every `GLfloat` is a Dafny `real`; `GeometryUtils::epsilon` is the
constant `Vectors.Epsilon` = 0.00001. A glm `mat3` is a column-major
`seq<seq<real>>` (`m[column][row]`), and each file's index pattern for
the rotation matrix is transcribed as it is written. Quantities the
engine derives from a `Transform` are inputs: the world center, the unit
axes, the capsule's end points and the scale. A square root is a
function parameter `sqrt` that, where a property needs it, satisfies
`IsSqrt(sqrt)`: `sqrt(x) >= 0` and `sqrt(x) * sqrt(x) == x` for
`x >= 0`. A length comparison `length(v) + a <= b` is therefore modelled
with that parameter. A lemma shows that it equals the squared comparison
that needs no root.

Objects whose fields the engine overwrites (`Line`, `Triangle`,
`Contact`, `SceneObject`, `SceneGraph`, the bounding sphere's radius, the
axis-aligned box's refitted extents) are Dafny classes with `modifies`
clauses. Loops of the source (the segment–triangle candidate scan, the
oriented-box corner loops, the separating-axis test, the refit, the
child-list edits) are methods with loop invariants. Each is proved equal
to a specification function, and the properties are proved about that
function.

Quirks of the code as written are reproduced, not fixed:

- `Triangle(v1, v2, v3)` stores `v2` as its third vertex.
- `getClosestPtPointOBB` clamps a projection below `-h` to `+h`.
- The sphere–sphere contact point is `c1 + 0.5 (c1 - c2)`, not the
  midpoint.
- The box–capsule contact normal is always zero.
- The second edge pass of the box–box contact tests the same edge every
  time, because it uses `bEdge` for `currentBEdge`.
- The rotation matrix is filled as `R[j][i] = axis_i . bAxis_j` in
  `OrientedBoundingBox.cpp` and as `R[i][j] = axis_i . bAxis_j` in
  `CollisionDetector.cpp`.

Where a quirk is evidently a bug, it is also listed under "Findings",
and a corrected definition with the intended property proved stands
beside the as-written one. The replies of the volumes (`AabbReply`,
`ObbReply`, `CapsuleReply`) and the dispatchers keep the as-written
predicates, because they model the code.

The axis-aligned box and the oriented box each answer a pair they do not
handle by handing it to the other volume with the question turned round
(`Volumes.Swapped`). For an axis-aligned box against an oriented box
both hand over, so the engine recurses without end; the model records
each hand-over as a `Delegate` reply and does not follow the chain.

The scene tree appears twice, on purpose. The child-list edits of
`SceneUtils` work on `SceneObject` class instances, because the engine
changes those lists in place and shares child pointers. The name search
of `SceneGraph` reads the tree and changes nothing, so it runs on the
`SceneGraphs.Node` datatype, a value snapshot of the tree. A class tree
with back references or a cycle has no such snapshot; see "Left out".

## Model

| member | source | states |
|---|---|---|
| GeometryUtils.SegmentParam | src/sources/GeometryUtils.cpp:3-23 | the parameter of the closest point on a segment always lies in [0, 1] |
| GeometryUtils.ClosestPtPointSegmentOnSegment | src/sources/GeometryUtils.cpp:3-23 | the closest point is start + u (end - start) at that parameter u, so it always lies on the segment |
| GeometryUtils.ClosestPtPointSegmentIsClosest | src/sources/GeometryUtils.cpp:3-23 | no point of the segment is nearer to the test point than the returned point |
| GeometryUtils.SegmentParamSolves | src/sources/GeometryUtils.cpp:8-22 | the parameter is 0 when the deferred projection t <= 0, 1 when t >= \|ab\|^2, and t / \|ab\|^2 otherwise |
| GeometryUtils.SqDistPointSegmentIsDistToClosest | src/sources/GeometryUtils.cpp:25-47 | the closed-form squared distance equals the squared distance to the closest point, so it is never negative |
| GeometryUtils.SqDistAtParam | src/sources/GeometryUtils.cpp:30-46 | each of the three branches (e <= 0, e >= f, interior) gives \|p - q\|^2 for the point q of the segment at the clamped parameter |
| GeometryUtils.ClampedRatioOf | src/sources/GeometryUtils.cpp:75 | `clamp(x / b, 0, 1)` lies in [0, 1] |
| GeometryUtils.ParamsOf | src/sources/GeometryUtils.cpp:63-108 | the two parameters the segment–segment routine settles on both end in [0, 1] |
| GeometryUtils.FirstS | src/sources/GeometryUtils.cpp:73-95 | s before t is examined lies in [0, 1] |
| GeometryUtils.SolvedS | src/sources/GeometryUtils.cpp:90-95 | the clamped solution for s, or 0 for parallel segments (denom = 0), lies in [0, 1] |
| GeometryUtils.SegmentParamsStep | src/sources/GeometryUtils.cpp:73-108 | the reassignments of s and t (the clamp of t below 0 or above 1 and the recomputed s) produce exactly ParamsOf |
| GeometryUtils.SegmentsClosest | src/sources/GeometryUtils.cpp:49-114 | the returned squared distance is never negative |
| GeometryUtils.ClosestPtSegmentSegment | src/sources/GeometryUtils.cpp:49-114 | the out-parameters c1, c2 and the returned value are those of SegmentsClosest |
| GeometryUtils.SegmentsClosestOnSegments | src/sources/GeometryUtils.cpp:49-114 | the returned pair lies on the two segments, c1 = start1 + s d1 and c2 = start2 + t d2 with s, t in [0, 1], and the value is their squared distance \|c2 - c1\|^2 |
| GeometryUtils.SegmentsClosestMutual | src/sources/GeometryUtils.cpp:49-114 | two point-like segments give c1 = start1 and c2 = start2; otherwise c2 is the closest point of segment 2 to c1, or c1 the closest point of segment 1 to c2 |
| GeometryUtils.MutualBothShort | src/sources/GeometryUtils.cpp:66-71 | both squared lengths <= epsilon give c1 = start1 and c2 = start2 |
| GeometryUtils.MutualFirstShort | src/sources/GeometryUtils.cpp:73-76 | a point-like first segment gives c2 = the closest point of segment 2 to c1 |
| GeometryUtils.MutualSecondShort | src/sources/GeometryUtils.cpp:78-82 | a point-like second segment gives c1 = the closest point of segment 1 to c2 |
| GeometryUtils.MutualBelow | src/sources/GeometryUtils.cpp:100-103 | when the unclamped t < 0, t becomes 0 and s = clamp(-c / b), so c1 is the closest point of segment 1 to c2 = start2 |
| GeometryUtils.MutualAbove | src/sources/GeometryUtils.cpp:104-107 | when the unclamped t > 1, t becomes 1 and s = clamp((d - c) / b), so c1 is the closest point of segment 1 to c2 = end2 |
| GeometryUtils.MutualInterior | src/sources/GeometryUtils.cpp:85-98 | when t = (d s + f) / e needs no clamp, c2 is the closest point of segment 2 to c1 |
| GeometryUtils.FollowsOntoSecond | src/sources/GeometryUtils.cpp:97 | the unclamped t is the projection parameter of c1 = start1 + s d1 onto segment 2 |
| GeometryTriangle.Normal | src/sources/GeometryUtils.cpp:116-122 | computeNormalFromPoints, cross(p2 - p1, p3 - p2), is orthogonal to both edges it is built from |
| GeometryTriangle.NormalFromFirstVertex | src/sources/GeometryUtils.cpp:116-122 | cross(p2 - p1, p3 - p2) equals cross(p2 - p1, p3 - p1) |
| GeometryTriangle.Barycentric | src/sources/GeometryUtils.cpp:124-143 | the coordinates sum to 1, and there are none exactly when the triangle is degenerate (denom = 0, a division by zero in the engine) |
| GeometryTriangle.BarycentricOfTrianglePoint | src/sources/GeometryUtils.cpp:124-143 | the point p1 + v (p2 - p1) + w (p3 - p1) of a non-degenerate triangle gets the coordinates (1 - v - w, v, w) |
| GeometryTriangle.BarycentricProjects | src/sources/GeometryUtils.cpp:124-143 | the coordinates name the orthogonal projection of the test point onto the triangle's plane |
| GeometryTriangle.WithinIffWeights | src/sources/GeometryUtils.cpp:145-156 | isPointWithinTriangle holds for the point with weights (v, w) exactly when v >= 0, w >= 0 and v + w <= 1 |
| GeometryTriangle.VertexAIsClosest | src/sources/GeometryUtils.cpp:164-172 | in the region d1 <= 0, d2 <= 0 the result is point1, and no point of the triangle is nearer |
| GeometryTriangle.VertexBIsClosest | src/sources/GeometryUtils.cpp:174-180 | in the region d3 >= 0, d4 <= d3 the result is point2, and no point of the triangle is nearer |
| GeometryTriangle.EdgeABIsClosest | src/sources/GeometryUtils.cpp:182-187 | in the AB edge region the result is the foot of the perpendicular on AB, nearer than every point of AB |
| GeometryTriangle.VertexCIsClosest | src/sources/GeometryUtils.cpp:188-194 | in the region d6 >= 0, d5 <= d6 the result is point3, and no point of the triangle is nearer |
| GeometryTriangle.EdgeACIsClosest | src/sources/GeometryUtils.cpp:196-201 | in the AC edge region the result is the foot of the perpendicular on AC, nearer than every point of AC |
| GeometryTriangle.EdgeBCIsClosest | src/sources/GeometryUtils.cpp:202-207 | in the BC edge region the result is the foot of the perpendicular on BC, nearer than every point of BC |
| GeometryTriangle.FaceIsClosest | src/sources/GeometryUtils.cpp:208-212 | in the face region the triangle is non-degenerate, the result is the point with the test point's barycentric weights, and no point of the plane is nearer |
| GeometryTriangle.ClosestPtPointTriangleOnTriangle | src/sources/GeometryUtils.cpp:158-213 | in every region, the face included, the result is a + v ab + w ac with v, w >= 0 and v + w <= 1: a point of the triangle |
| GeometryTriangle.ClosestPtPointTriangleIsNearest | src/sources/GeometryUtils.cpp:158-213 | no point a + v ab + w ac of the triangle (v, w >= 0, v + w <= 1) is nearer to p than the result |
| GeometryTriangle.FaceWeightsInTriangle | src/sources/GeometryUtils.cpp:208-212 | in the face region va + vb + vc > 0, and the weights v = vb / (va + vb + vc), w = vc / (va + vb + vc) are positive with v + w < 1 |
| GeometryTriangle.EdgeABNearest | src/sources/GeometryUtils.cpp:182-187 | in the AB edge region no point of the triangle is nearer to p than the result |
| GeometryTriangle.EdgeACNearest | src/sources/GeometryUtils.cpp:196-201 | in the AC edge region no point of the triangle is nearer to p than the result |
| GeometryTriangle.EdgeBCNearest | src/sources/GeometryUtils.cpp:202-207 | in the BC edge region no point of the triangle is nearer to p than the result |
| GeometryTriangle.SegmentTriangleHitShort | src/sources/GeometryUtils.cpp:229-233 | a segment with squared length < epsilon sets c = start and returns isPointWithinTriangle(start) |
| GeometryTriangle.SegmentTriangleMissOutside | src/sources/GeometryUtils.cpp:235-239 | a plane parameter t outside [0, 1] returns false and leaves c as it was |
| GeometryTriangle.SegmentTriangleHitOnSegmentAndPlane | src/sources/GeometryUtils.cpp:235-242 | on a hit of a long segment, c = start + t (end - start) with t in [0, 1], and c lies on the triangle's plane and within the triangle |
| GeometryTriangle.HitIgnoresEntryValue | src/sources/GeometryUtils.cpp:215-243 | the verdict, and c on a hit, do not depend on the value c held on entry |
| GeometryTriangle.Candidates | src/sources/GeometryUtils.cpp:259-286 | the candidate list holds the three edge pairs and up to two plane projections: between 3 and 5 pairs |
| GeometryTriangle.FirstMin | src/sources/GeometryUtils.cpp:288-299 | the scan keeps the first pair of least squared distance: no pair is nearer and every earlier pair is strictly farther |
| GeometryTriangle.ChooseIsMinimum | src/sources/GeometryUtils.cpp:254-303 | a hit gives c1 = c2 and 0; otherwise the result is a candidate pair whose squared distance is at most every candidate's |
| GeometryTriangle.SegmentTriangleClosestIsMinimum | src/sources/GeometryUtils.cpp:245-304 | getClosestPointBetweenSegmentAndTriangle returns 0 with c2 = c1 on a hit, and otherwise the least squared distance among the candidates it collects |
| GeometryTriangle.CandidatePairs | src/sources/GeometryUtils.cpp:259-286 | the push_back sequence builds exactly Candidates |
| GeometryTriangle.NearestPair | src/sources/GeometryUtils.cpp:288-303 | the min-scan loop returns the pair at FirstMin and its squared distance |
| GeometryTriangle.ClosestPtSegmentTriangle | src/sources/GeometryUtils.cpp:245-304 | the routine's out-parameters and result are those of SegmentTriangleClosest |
| GeometryPlane.ClosestPtPointPlaneOnPlane | src/sources/GeometryUtils.cpp:306-313 | for a non-zero normal the projected point q satisfies n . q = d |
| GeometryPlane.ClosestPtPointPlaneFixesPlane | src/sources/GeometryUtils.cpp:306-313 | a point already on the plane is returned unchanged |
| GeometryPlane.ClosestPtPointPlaneIsClosest | src/sources/GeometryUtils.cpp:306-313 | no point of the plane is nearer to p than the projection |
| GeometryPlane.ProjectionNotOutside | src/sources/GeometryUtils.cpp:306-321 | a projected point is never outside its plane |
| GeometryPlane.OutsideIffOffset | src/sources/GeometryUtils.cpp:315-321 | isPointOutsideOfPlane holds exactly when p . n - d > epsilon or < -epsilon |
| GeometryPlane.OppositeSidesAsWrittenNegatesOffset | src/sources/GeometryUtils.cpp:323-333 | the test as written, with the signs p . n + d, is the opposite-sides test of the plane n . x = -d |
| GeometryPlane.OppositeSidesSymmetric | src/sources/GeometryUtils.cpp:323-333 | the opposite-sides test, as written and corrected, is symmetric in the two points |
| GeometryPlane.OppositeSidesAsWrittenMissesSeparation | src/sources/GeometryUtils.cpp:323-333 | the plane x = 1 separates the origin from (2, 0, 0), yet the test as written reports them on the same side, while the corrected test does not |
| GeometryPlane.OppositeSidesCross | src/sources/GeometryUtils.cpp:323-333 | two points on opposite sides of n . x = d have a point strictly between them on the plane |
| GeometryBox.ClampToExtent | src/sources/GeometryUtils.cpp:357-362 | for h >= 0 the clamp lies in [-h, h], leaves a projection already in [-h, h] unchanged, and moves one outside by exactly how far it sticks out |
| GeometryBox.SignOf | src/sources/GeometryUtils.cpp:355 | the sign chosen by `dist < 0 ? -1 : 1` times dist is \|dist\| |
| GeometryBox.FaceAxis | src/sources/GeometryUtils.cpp:356-391 | the face axis has the least depth h - \|dist\|, and every earlier axis is strictly deeper, so ties keep the earlier axis |
| GeometryBox.ClampStep | src/sources/GeometryUtils.cpp:357-362 | the two-branch clamp equals ClampToExtent |
| GeometryBox.ClosestPtPointOBBSteps | src/sources/GeometryUtils.cpp:335-401 | the step-by-step accumulation of result, planeNormal and minDepth gives ClosestPtPointOBB |
| GeometryBox.ClosestPtPointOBBIsClosest | src/sources/GeometryUtils.cpp:335-401 | for orthonormal axes no box point center + u x + v y + w z with \|u\| <= h.x, \|v\| <= h.y, \|w\| <= h.z is nearer to p than the result |
| GeometryBox.ClosestPtPointOBBInBox | src/sources/GeometryUtils.cpp:348-401 | for orthonormal axes and h >= 0 the result's box coordinates are p's clamped to [-h, h], so it lies in the box |
| GeometryBox.FaceNormalFacesPoint | src/sources/GeometryUtils.cpp:354-391 | the normal is plus or minus the axis of least depth, and its product with p - center is \|dist\| on that axis |
| Vectors.Clamp | src/sources/GeometryUtils.cpp:75 | glm's clamp lies in [lo, hi], leaves a value inside unchanged, and gives lo below and hi above |
| Vectors.LengthLeIffSquared | src/sources/CollisionDetector.cpp:606-616 | with s the root of lenSq, length + a <= b holds exactly when b - a >= 0 and lenSq <= (b - a)^2 |
| Frames.FrameMatrixOrthogonal | src/sources/OrientedBoundingBox.cpp:287-291 | the matrix of products a_i . b_j of two orthonormal frames is orthogonal |
| Frames.FrameMinor | src/sources/OrientedBoundingBox.cpp:321-364 | each 2 x 2 minor of that matrix equals, up to sign, the entry in the remaining row and column, the identity the nine cross-axis tests rely on |
| Frames.Completeness | src/sources/OrientedBoundingBox.cpp:293-296 | a vector is the sum of its projections on an orthonormal frame |
| Frames.Parseval | src/sources/OrientedBoundingBox.cpp:293-296 | a dot product equals the sum of the products of the projections on an orthonormal frame |
| Volumes.FaceSigns | src/sources/OrientedBoundingBox.cpp:116-204 | the twelve corner-sign pairs of getTriangles put triangles 4f to 4f + 3 on face f, the first two on the + side and the last two on the - side |
| Volumes.BoxTrianglesOnFaces | src/sources/OrientedBoundingBox.cpp:116-204 | triangle k of a box has its first two vertices at corners of face k / 4 and its third equal to its second |
| Volumes.DegenerateTriangleNeverHit | src/sources/GeometryUtils.cpp:215-243 | a triangle whose last two vertices coincide, as every box triangle does, is never hit by a segment |
| Volumes.FlatTriangleNeverHit | src/sources/GeometryUtils.cpp:215-243 | a triangle with zero normal and zero Gram determinant is never hit |
| Volumes.SegmentTriangleHitParallel | src/sources/GeometryUtils.cpp:235-241 | a long segment parallel to the triangle's plane is a miss that leaves c as it was |
| Volumes.MinOf | src/sources/OrientedBoundingBox.cpp:254-269 | the least of a non-empty list of squared distances is one of them and at most each |
| Volumes.MinSegmentTriangleDist2 | src/sources/OrientedBoundingBox.cpp:254-269 | the loop over the triangles keeps the least segment-to-triangle squared distance |
| Volumes.MinSegmentTriangleDist2IsLeast | src/sources/OrientedBoundingBox.cpp:254-269 | that least value is at most every triangle's squared distance and is attained by one of them |
| Volumes.MinTriangleDistWithin | src/sources/BoundingCapsule.cpp:138-151 | comparing the least squared distance with the radius squared decides whether some triangle is within the radius |
| Volumes.MinWithinIffSome | src/sources/OrientedBoundingBox.cpp:254-269 | the least squared distance is within radius2 exactly when some triangle's is |
| Volumes.AnyDistWithinIffSome | src/sources/OrientedBoundingBox.cpp:254-269 | some listed distance is within radius2 exactly when some triangle is |
| Volumes.DegenerateTriangleWithin | src/sources/OrientedBoundingBox.cpp:254-269 | a degenerate triangle whose edge is within the radius makes the whole test pass |
| Volumes.CornerSigns | src/sources/OrientedBoundingBox.cpp:553-561 | the engine's corner order ---, --+, +--, +-+, +++, ++-, -++, -+- lists the eight sign vectors, each once |
| Volumes.CubeCornersAreBoxCorners | src/sources/OrientedBoundingBox.cpp:398-409 | the eight test points around a sphere are the corners of the cube of half side r on the unit axes |
| Volumes.CornerCoordinates | src/sources/OrientedBoundingBox.cpp:553-561 | for orthonormal axes, corner s of a box has box coordinates (s_x h_x, s_y h_y, s_z h_z) |
| Volumes.CheckMappedWithin | src/sources/OrientedBoundingBox.cpp:413-421 | the loop over the test points is true exactly when every R (p - center) lies within the half extents |
| Volumes.CheckWithinRadius | src/sources/OrientedBoundingBox.cpp:566-574 | the loop is true exactly when every test point is within the squared radius of the center |
| Volumes.CheckNearSegment | src/sources/OrientedBoundingBox.cpp:597-605 | the loop is true exactly when every test point is within the squared radius of the segment |
| Volumes.Swapped | src/sources/OrientedBoundingBox.cpp:539-541 | the hand-over keeps intersectsVolume and exchanges enclosesVolume and isEnclosedByVolume |
| Volumes.SwappedTwice | src/sources/OrientedBoundingBox.cpp:659-661 | turning a question round twice gives it back |
| AlignedBoxes.RefitNonNegative | src/sources/AxisAlignedBoundingBox.cpp:336-342 | every refitted half extent is >= 0 |
| AlignedBoxes.RefitIdentity | src/sources/AxisAlignedBoundingBox.cpp:336-342 | under the identity rotation the refit gives \|h\| on each axis |
| AlignedBoxes.RefitEncloses | src/sources/AxisAlignedBoundingBox.cpp:336-342 | every rotated box point M u with \|u_i\| <= \|h_i\| lies within the refitted extents: the new box holds the turned box |
| AlignedBoxes.RefitAttained | src/sources/AxisAlignedBoundingBox.cpp:336-342 | on each axis a corner of the turned box reaches the refitted extent, so no smaller box holds it |
| AlignedBoxes.AxisAlignedBoundingBox.constructor | src/sources/AxisAlignedBoundingBox.cpp:3-7 | the constructor stores the initial half extents, name and transform, with no children |
| AlignedBoxes.AxisAlignedBoundingBox.Copy | src/sources/AxisAlignedBoundingBox.cpp:9-27 | copy and move construction carry over both extents, name, transform and children |
| AlignedBoxes.AxisAlignedBoundingBox.Assign | src/sources/AxisAlignedBoundingBox.cpp:29-57 | copy and move assignment take both extents, name, transform and children |
| AlignedBoxes.AxisAlignedBoundingBox.RefitHalfExtents | src/sources/AxisAlignedBoundingBox.cpp:336-342 | the refit loop sets the half extents to the refit of the initial ones under the rotation, and changes nothing else |
| AlignedBoxes.AxisAlignedBoundingBox.SetHalfExtents | src/sources/AxisAlignedBoundingBox.cpp:101-114 | setHalfExtents stores h as the initial extents and refits it under the current rotation |
| AlignedBoxes.AxisAlignedBoundingBox.Update | src/sources/AxisAlignedBoundingBox.cpp:335-344 | update refits the half extents under the new rotation, keeping the initial extents, name and children |
| AlignedBoxes.AxisAlignedBoundingBox.GetSquaredDistancePtPointAABB | src/sources/AxisAlignedBoundingBox.cpp:116-133 | the loop returns the summed squared excess of pt beyond [center - h, center + h] |
| AlignedBoxes.SqDistZeroIff | src/sources/AxisAlignedBoundingBox.cpp:116-133 | that value is >= 0, and 0 exactly when the point is in the box |
| AlignedBoxes.SqDistIsDistance | src/sources/AxisAlignedBoundingBox.cpp:116-133 | it is the squared distance to the clamped point, and at most the squared distance to any box point |
| AlignedBoxes.IntersectsSphereIff | src/sources/AxisAlignedBoundingBox.cpp:229-234 | for h >= 0 the sphere test holds exactly when some point of the box is within the radius of the center |
| AlignedBoxes.IntersectsAabbSteps | src/sources/AxisAlignedBoundingBox.cpp:236-248 | the per-axis loop returns the overlap test |
| AlignedBoxes.IntersectsAabbSymmetric | src/sources/AxisAlignedBoundingBox.cpp:236-248 | the box-box overlap test is symmetric |
| AlignedBoxes.IntersectsAabbIff | src/sources/AxisAlignedBoundingBox.cpp:236-248 | two boxes with h >= 0 pass the test exactly when they share a point |
| AlignedBoxes.EnclosesSphereHoldsBall | src/sources/AxisAlignedBoundingBox.cpp:257-272 | when the test passes, every point of the ball is in the box |
| AlignedBoxes.CheckIntervalsWithin | src/sources/AxisAlignedBoundingBox.cpp:274-288 | the per-axis loop is true exactly when the other box's [min, max] lies within this one's |
| AlignedBoxes.EnclosesAabbReflexive | src/sources/AxisAlignedBoundingBox.cpp:274-288 | a box with h >= 0 encloses itself |
| AlignedBoxes.EnclosesAabbHoldsPoints | src/sources/AxisAlignedBoundingBox.cpp:274-288 | every point of an enclosed box is in the enclosing box |
| AlignedBoxes.IsEnclosedByAabbDual | src/sources/AxisAlignedBoundingBox.cpp:314-328 | a is enclosed by b exactly when b encloses a |
| AlignedBoxes.IsEnclosedBySphereAcceptsCube | src/sources/AxisAlignedBoundingBox.cpp:297-312 | the test as written accepts the cube of half side 1 in the unit sphere at the same center |
| AlignedBoxes.IsEnclosedBySphereCorrectedRefusesCube | src/sources/AxisAlignedBoundingBox.cpp:297-312 | that cube's corner is at squared distance 3 from the center, and the corrected test refuses it |
| AlignedBoxes.IsEnclosedBySphereCorrectedStricter | src/sources/AxisAlignedBoundingBox.cpp:297-312 | whatever the corrected test accepts, the test as written accepts too |
| AlignedBoxes.IsEnclosedBySphereCorrectedHoldsBox | src/sources/AxisAlignedBoundingBox.cpp:297-312 | when the corrected test passes, every point of the box is in the sphere |
| AlignedBoxes.AabbTriangles | src/sources/AxisAlignedBoundingBox.cpp:135-225 | triangle k has vertices center + s h at corners of face k / 4, the third equal to the second |
| AlignedBoxes.AabbReply | src/sources/AxisAlignedBoundingBox.cpp:227-333 | the box answers for a sphere or an axis-aligned box and hands a capsule or an oriented box over |
| OrientedBoxes.ActualHalfExtents | src/sources/OrientedBoundingBox.cpp:97-99 | \|r_i\| = \|h_i\| \|s_i\|; non-negative for h >= 0; h itself under a scale of unit magnitude |
| OrientedBoxes.OrientedBoundingBox.constructor | src/sources/OrientedBoundingBox.cpp:3-8 | the constructor stores half extents, name and transform, with no children |
| OrientedBoxes.OrientedBoundingBox.Copy | src/sources/OrientedBoundingBox.cpp:10-26 | copy and move construction carry over half extents, name, transform and children |
| OrientedBoxes.OrientedBoundingBox.Assign | src/sources/OrientedBoundingBox.cpp:28-49 | copy and move assignment take half extents, name, transform and children |
| OrientedBoxes.OrientedBoundingBox.SetHalfExtents | src/sources/OrientedBoundingBox.cpp:93-95 | setHalfExtents changes only the half extents |
| OrientedBoxes.OrientedBoundingBox.GetActualHalfExtents | src/sources/OrientedBoundingBox.cpp:97-99 | the member reads the half extents and the transform's scale |
| OrientedBoxes.FlipClamp | src/sources/OrientedBoundingBox.cpp:206-242 | for h >= 0 the per-axis value lies in [-h, h] and is the projection inside; below -h it is +h, so it equals the true clamp exactly when dist >= -h or h = 0 |
| OrientedBoxes.ClosestPtAsWrittenSteps | src/sources/OrientedBoundingBox.cpp:206-242 | the loop builds the point from the three per-axis values |
| OrientedBoxes.ClosestPtAsWrittenInBox | src/sources/OrientedBoundingBox.cpp:206-242 | for orthonormal axes the result always lies in the box |
| OrientedBoxes.ClosestPtAsWrittenIsCorrectIff | src/sources/OrientedBoundingBox.cpp:206-242 | the result is the true closest point exactly when no projection lies below -h on an axis with h > 0 |
| OrientedBoxes.ClosestPtCorrectedGap | src/sources/OrientedBoundingBox.cpp:206-242 | the corrected point differs from p by max(\|d\| - h, 0) on each axis |
| OrientedBoxes.ClosestPtOfInsidePoint | src/sources/OrientedBoundingBox.cpp:206-242 | a point in the box is its own closest point, as written and corrected |
| OrientedBoxes.IntersectsSphereIff | src/sources/OrientedBoundingBox.cpp:246-252 | the test as written holds exactly when the squared per-axis gaps of the flipped clamp sum to at most r^2 |
| OrientedBoxes.IntersectsSphereCorrectedIff | src/sources/OrientedBoundingBox.cpp:246-252 | the corrected test holds exactly when the squared gaps max(\|d\| - h, 0) sum to at most r^2 |
| OrientedBoxes.IntersectsSphereCenterInside | src/sources/OrientedBoundingBox.cpp:246-252 | a sphere centred in the box intersects it, as written and corrected |
| OrientedBoxes.IntersectsSphereMissesNearFace | src/sources/OrientedBoundingBox.cpp:246-252 | a sphere centred just beyond the -x face that reaches the box is reported apart by the test as written and touching by the corrected one |
| OrientedBoxes.IntersectsCapsuleSteps | src/sources/OrientedBoundingBox.cpp:254-269 | the triangle loop returns whether some box triangle is within the capsule's radius of its line |
| OrientedBoxes.IntersectsCapsuleNearEdge | src/sources/OrientedBoundingBox.cpp:254-269 | a capsule within its radius of the edge of any box triangle intersects the box |
| ObbSeparation.FillFrameMatrix | src/sources/OrientedBoundingBox.cpp:287-291 | the nested loop fills R[j][i] = a_i . b_j |
| ObbSeparation.FillAbsMatrix | src/sources/OrientedBoundingBox.cpp:300-304 | absR[j][i] = \|R[j][i]\| + 1e-8 |
| ObbSeparation.IntersectsObbSteps | src/sources/OrientedBoundingBox.cpp:271-367 | the box-box branch returns the separating-axis test as written |
| ObbSeparation.SatSteps | src/sources/OrientedBoundingBox.cpp:306-366 | the early-return tests are true exactly when none of the fifteen axes as written separates |
| ObbSeparation.CrossTestsSteps | src/sources/OrientedBoundingBox.cpp:321-364 | the nine cross-axis tests pass exactly when none of them separates |
| ObbSeparation.CrossTestAsWrittenMatches | src/sources/OrientedBoundingBox.cpp:321-364 | every cross-axis test but A0 x B1 decides as the textbook test |
| ObbSeparation.CrossTestA0B1 | src/sources/OrientedBoundingBox.cpp:326-329 | the A0 x B1 test as written has b's radius too large by (bh.y - bh.x) absR[2][0] |
| ObbSeparation.CrossTestA0B1TooSmall | src/sources/OrientedBoundingBox.cpp:326-329 | when bh.y < bh.x and absR[2][0] > 0 that radius is too small |
| ObbSeparation.SatTestsAsWrittenAgree | src/sources/OrientedBoundingBox.cpp:306-366 | when b's x and y half extents are equal, the tests as written and corrected agree |
| ObbSeparation.SatTestsSound | src/sources/OrientedBoundingBox.cpp:306-366 | for orthogonal R, with t the offset from a point u of a to a point v of b, no corrected test separates |
| ObbSeparation.NoSeparatingAxisSound | src/sources/OrientedBoundingBox.cpp:271-367 | two boxes with orthonormal axes that share a point pass the corrected test |
| ObbSeparation.IntersectsObbAgrees | src/sources/OrientedBoundingBox.cpp:271-367 | with bh.x = bh.y the test as written equals the corrected one |
| ObbSeparation.IntersectsObbMissesOverlap | src/sources/OrientedBoundingBox.cpp:326-329 | the unit cube and a box of half extents (2, 0.5, 1) at (0, 2.5, 0) share (0, 0.75, 0), yet the test as written separates them and the corrected test does not |
| ObbEnclosure.InBoxIff | src/sources/OrientedBoundingBox.cpp:413-421 | a point passes the per-axis bound test exactly when it is center + u x + v y + w z with \|u\|, \|v\|, \|w\| within the extents |
| ObbEnclosure.EnclosesSphereSteps | src/sources/OrientedBoundingBox.cpp:376-424 | the sphere branch returns the corner test |
| ObbEnclosure.EnclosesSphereIff | src/sources/OrientedBoundingBox.cpp:376-424 | the test holds exactly when all eight corners of the cube around the sphere are in the box |
| ObbEnclosure.EnclosesSphereHoldsCenter | src/sources/OrientedBoundingBox.cpp:376-424 | a sphere the box encloses has its center in the box |
| ObbEnclosure.EnclosesCapsuleSteps | src/sources/OrientedBoundingBox.cpp:426-488 | the capsule branch returns the test on the cubes around both ends |
| ObbEnclosure.EnclosesCapsuleHoldsLine | src/sources/OrientedBoundingBox.cpp:426-488 | a capsule the box encloses has both ends of its line in the box |
| ObbEnclosure.EnclosesObbSteps | src/sources/OrientedBoundingBox.cpp:489-537 | the box branch returns the test as written |
| ObbEnclosure.EnclosesObbCorrectedIff | src/sources/OrientedBoundingBox.cpp:489-537 | the corrected test holds exactly when all eight corners of b are in a |
| ObbEnclosure.EnclosesObbHoldsCenter | src/sources/OrientedBoundingBox.cpp:489-537 | a box the corrected test accepts has its center in a |
| ObbEnclosure.EnclosesObbAgrees | src/sources/OrientedBoundingBox.cpp:489-537 | for b on the unit axes the test as written equals the corrected one |
| ObbEnclosure.EnclosesObbMissesEnclosure | src/sources/OrientedBoundingBox.cpp:489-537 | a turned box whose corners all lie in a is refused by the test as written and accepted by the corrected one |
| ObbEnclosure.IsEnclosedBySphereSteps | src/sources/OrientedBoundingBox.cpp:546-575 | the sphere branch returns the corner test |
| ObbEnclosure.IsEnclosedBySphereHoldsCenter | src/sources/OrientedBoundingBox.cpp:546-575 | a box inside a sphere has its center within the radius |
| ObbEnclosure.IsEnclosedByCapsuleSteps | src/sources/OrientedBoundingBox.cpp:577-606 | the capsule branch returns the corner test against the line |
| ObbEnclosure.IsEnclosedByPointCapsule | src/sources/OrientedBoundingBox.cpp:577-606 | for a capsule whose line is a point the test is the corner test against a sphere |
| ObbEnclosure.IsEnclosedByObbSteps | src/sources/OrientedBoundingBox.cpp:608-657 | the box branch returns the test as written |
| ObbEnclosure.IsEnclosedByObbCorrectedIff | src/sources/OrientedBoundingBox.cpp:608-657 | the corrected test holds exactly when all eight corners of a are in b |
| ObbEnclosure.IsEnclosedByObbCorrectedDual | src/sources/OrientedBoundingBox.cpp:608-657 | a is enclosed by b exactly when b encloses a, both corrected |
| ObbEnclosure.IsEnclosedByObbAgrees | src/sources/OrientedBoundingBox.cpp:608-657 | for two boxes on the unit axes the test as written equals the corrected one |
| ObbEnclosure.IsEnclosedByObbMissesEnclosure | src/sources/OrientedBoundingBox.cpp:608-657 | an aligned box whose corners all lie in a turned box b is refused by the test as written, though b encloses it |
| ObbEnclosure.ObbReply | src/sources/OrientedBoundingBox.cpp:244-662 | the oriented box answers for spheres, capsules and oriented boxes and hands an axis-aligned box over |
| Capsules.BoundingCapsule.constructor | src/sources/BoundingCapsule.cpp:3-9 | the constructor stores line length, radius, name and transform, with no children |
| Capsules.BoundingCapsule.Copy | src/sources/BoundingCapsule.cpp:11-18 | copy construction carries over line length, radius and children |
| Capsules.BoundingCapsule.Move | src/sources/BoundingCapsule.cpp:20-29 | move construction carries over all fields |
| Capsules.BoundingCapsule.Assign | src/sources/BoundingCapsule.cpp:31-59 | copy and move assignment take all fields |
| Capsules.IntersectsSphereIff | src/sources/BoundingCapsule.cpp:131-136 | the test holds exactly when some point of the line is within the sum of the radii of the sphere's center |
| Capsules.IntersectsAabbSteps | src/sources/BoundingCapsule.cpp:138-151 | the triangle loop returns whether some triangle of the box is within the radius of the line |
| Capsules.IntersectsCapsuleWitness | src/sources/BoundingCapsule.cpp:153-163 | when the test passes, some points of the two lines are within the sum of the radii |
| Capsules.RootLeIffSquared | src/sources/BoundingCapsule.cpp:177-183 | length + a <= b holds exactly when b - a >= 0 and the squared length is at most (b - a)^2 |
| Capsules.EnclosesSphereSquared | src/sources/BoundingCapsule.cpp:177-183 | the test holds exactly when r - r_s >= 0 and the center's squared distance to the line is at most (r - r_s)^2 |
| Capsules.EnclosesSphereHoldsBall | src/sources/BoundingCapsule.cpp:177-183 | when it passes, every point of the ball is within the radius of the line |
| Capsules.EnclosesAabbSteps | src/sources/BoundingCapsule.cpp:185-208 | the corner loop returns the test |
| Capsules.EnclosesAabbHoldsCenter | src/sources/BoundingCapsule.cpp:185-208 | an enclosed box has its center within the radius of the line |
| Capsules.EnclosesCapsuleSquared | src/sources/BoundingCapsule.cpp:210-221 | the test holds exactly when r - r_b >= 0 and both ends of b's line are within r - r_b of this line |
| Capsules.EnclosesCapsuleBounds | src/sources/BoundingCapsule.cpp:210-221 | a passing test gives r >= r_b and both end bounds |
| Capsules.EnclosesCapsuleHoldsCapsule | src/sources/BoundingCapsule.cpp:210-221 | when it passes, every point of capsule b is within the radius of this line |
| Capsules.FinalRadiusIsLongerImage | src/sources/BoundingCapsule.cpp:229-250 | the squared final radius is the larger squared length of the images of (r, 0, 0) and (0, 0, r) |
| Capsules.FinalRadiusSqNonNegative | src/sources/BoundingCapsule.cpp:229-250 | the squared final radius is >= 0 |
| Capsules.IsEnclosedBySphereBounds | src/sources/BoundingCapsule.cpp:251-262 | a passing test gives r_s >= the final radius and both ends of the line within the difference |
| Capsules.IsEnclosedBySphereHoldsCapsule | src/sources/BoundingCapsule.cpp:251-262 | when it passes, every point of the capsule is in the sphere |
| Capsules.IsEnclosedByAabbSteps | src/sources/BoundingCapsule.cpp:263-288 | the loop returns the test |
| Capsules.IsEnclosedByAabbHoldsCapsule | src/sources/BoundingCapsule.cpp:263-288 | when it passes, every point of the capsule is in the box |
| Capsules.IsEnclosedByCapsuleDual | src/sources/BoundingCapsule.cpp:289-302 | this capsule is enclosed by b exactly when b encloses it |
| Capsules.CapsuleReply | src/sources/BoundingCapsule.cpp:124-306 | the capsule answers for spheres, axis-aligned boxes and capsules and hands an oriented box over |
| Collisions.ContactAtValidIff | src/sources/CollisionDetector.cpp:91-117 | the contact is valid exactly when dist2 <= r^2 + epsilon, and an invalid contact is the zero contact |
| Collisions.ContactAtPenetration | src/sources/CollisionDetector.cpp:91-117 | for dist2 <= r^2 the contact is valid with penetration >= 0 |
| Collisions.ContactAtTurned | src/sources/CollisionDetector.cpp:119-149 | turning the normal round changes neither validity nor penetration |
| Collisions.DirectionScales | src/sources/CollisionDetector.cpp:105 | dist times offset / dist is the offset |
| Collisions.DirectionIsUnit | src/sources/CollisionDetector.cpp:105 | offset / \|offset\| has length 1 |
| Collisions.SphereSphereValid | src/sources/CollisionDetector.cpp:91-117 | valid exactly when the squared center distance is at most (r1 + r2)^2 + epsilon, with penetration >= 0 when the spheres truly touch |
| Collisions.SphereSphereSwapped | src/sources/CollisionDetector.cpp:91-117 | exchanging the spheres keeps validity and penetration and negates the normal |
| Collisions.SphereSphereNormal | src/sources/CollisionDetector.cpp:91-117 | for distinct centers the normal has length 1 and points from the second center to the first |
| Collisions.SphereSphereContactPoint | src/sources/CollisionDetector.cpp:91-117 | the point c1 + 0.5 (c1 - c2) is 1.5 center distances from c2, and it is the midpoint only when the centers coincide |
| Collisions.CapsuleSphereValid | src/sources/CollisionDetector.cpp:119-149 | valid exactly when the sphere center is within r_c + r_s (+ epsilon) of the capsule line |
| Collisions.CapsuleSphereReverse | src/sources/CollisionDetector.cpp:119-149 | reverseContactTarget negates only the normal |
| Collisions.LineSphereValid | src/sources/CollisionDetector.cpp:119-149 | the contact at the closest line point is valid exactly when its squared distance is at most the squared radius sum plus epsilon |
| Collisions.CapsuleCapsuleValid | src/sources/CollisionDetector.cpp:151-180 | valid exactly when the closest points of the two lines are within the radius sum (+ epsilon) |
| Collisions.CapsuleCapsuleContactPoint | src/sources/CollisionDetector.cpp:151-180 | the contact point is 1.5 closest-pair distances from the second line's point |
| Collisions.ObbSphereValid | src/sources/CollisionDetector.cpp:182-217 | valid exactly when the sphere center is within r (+ epsilon) of its closest point on the box |
| Collisions.ObbSphereReverse | src/sources/CollisionDetector.cpp:182-217 | reverseContactTarget negates only the normal |
| Collisions.ObbSphereCenterInside | src/sources/CollisionDetector.cpp:182-217 | a sphere centred in the box gives a valid contact with penetration equal to its radius |
| Collisions.ObbCapsuleSteps | src/sources/CollisionDetector.cpp:219-254 | the triangle loop and the contact built from it equal the reference contact |
| Collisions.ObbCapsuleValid | src/sources/CollisionDetector.cpp:219-254 | valid exactly when some box triangle is within the capsule radius (+ epsilon) of the line |
| Collisions.ObbCapsuleNormalIsZero | src/sources/CollisionDetector.cpp:219-254 | the contact normal is always zero, the normal of a degenerate box triangle |
| Collisions.ObbCapsuleReverse | src/sources/CollisionDetector.cpp:219-254 | reverseContactTarget changes nothing, since the zero normal is its own negation |
| Collisions.FirstMinIndex | src/sources/CollisionDetector.cpp:229-238 | the index of the first least squared distance: no entry is smaller, every earlier one is larger |
| Collisions.NearestTriangle | src/sources/CollisionDetector.cpp:229-238 | the loop keeps the first least triangle, while c1 and c2 come from the last triangle measured |
| Collisions.TrianglesContactValid | src/sources/CollisionDetector.cpp:219-254 | the contact from a triangle list is valid exactly when some triangle is within the radius plus epsilon |
| Dispatch.SphereContact | src/sources/CollisionDetector.cpp:25-45 | a sphere against an axis-aligned box gives the zero contact |
| Dispatch.CapsuleContact | src/sources/CollisionDetector.cpp:47-67 | a capsule against an axis-aligned box gives the zero contact |
| Dispatch.ObbContact | src/sources/CollisionDetector.cpp:69-89 | an oriented box against an axis-aligned box gives the zero contact |
| Dispatch.VolumeContact | src/sources/CollisionDetector.cpp:3-23 | any pair with an axis-aligned box gives the zero contact |
| Dispatch.VolumeContactSwapped | src/sources/CollisionDetector.cpp:3-89 | unless both volumes are capsules or both oriented boxes, exchanging them mirrors the contact |
| Dispatch.VolumeContactInvalidIsZero | src/sources/CollisionDetector.cpp:3-89 | every invalid contact the dispatcher returns is the zero contact |
| Dispatch.CapsuleObbContacts | src/sources/CollisionDetector.cpp:47-89 | capsule-box and box-capsule both reach the box-capsule test, reversed and not |
| BoxContacts.FillDetectorFrame | src/sources/CollisionDetector.cpp:281-286 | the detector's loop fills R[i][j] = a_i . b_j, the transpose of the frame matrix |
| BoxContacts.DetectorFrameTransposed | src/sources/CollisionDetector.cpp:281-286 | the detector's matrix is the transpose of the oriented box's |
| BoxContacts.SatPassesAgrees | src/sources/CollisionDetector.cpp:256-383 | when that matrix is symmetric and bh.x = bh.y the tests as written and corrected agree |
| BoxContacts.SatPassesCorrectedSound | src/sources/CollisionDetector.cpp:256-383 | two boxes with orthonormal axes that share a point pass the corrected tests |
| BoxContacts.ObbObbValidIff | src/sources/CollisionDetector.cpp:256-536 | the contact is valid exactly when the tests pass, and otherwise it is the zero contact |
| BoxContacts.ObbObbCorrectedTouching | src/sources/CollisionDetector.cpp:256-536 | boxes that share a point get a valid contact from the corrected routine |
| BoxContacts.ObbObbMissesTouchingBoxes | src/sources/CollisionDetector.cpp:281-286 | a flat box and a tilted segment sharing (-2, 1, 1) get no contact, but a valid one from the corrected routine |
| BoxContacts.BinaryCornersAreCorners | src/sources/CollisionDetector.cpp:385-412 | the detector's corners are the box's eight corners in another order |
| BoxContacts.EdgePairsAreBoxEdges | src/sources/CollisionDetector.cpp:434-478 | the twelve index pairs are the twelve edges of the box, each once |
| BoxContacts.ObbObbSteps | src/sources/CollisionDetector.cpp:256-536 | the routine returns the reference contact |
| BoxContacts.BoxesContactSteps | src/sources/CollisionDetector.cpp:385-536 | the scans and the choice return the reference contact |
| BoxContacts.CornerScan | src/sources/CollisionDetector.cpp:413-432 | the corner loop keeps the first corner whose closest box point is nearest a's center |
| BoxContacts.NearestCornerIsNearest | src/sources/CollisionDetector.cpp:413-432 | that corner is one of b's and no corner's closest point is nearer a's center |
| BoxContacts.EdgeScan | src/sources/CollisionDetector.cpp:479-497 | the first edge loop keeps the first edge of a whose closest point to b's first edge is nearest a's center |
| BoxContacts.NearestEdgePairOnEdges | src/sources/CollisionDetector.cpp:480-497 | the pair lies on an edge of a and on b's first edge |
| BoxContacts.SecondEdgePass | src/sources/CollisionDetector.cpp:499-516 | the second loop always measures b's first edge again, so it hands back the first scan's winner unchanged |
| BoxContacts.EdgeContactMeasures | src/sources/CollisionDetector.cpp:519-528 | the edge contact is valid at c1 with penetration \|c1 - c2\| and, for distinct points, a unit normal from c2 to c1 |
| BoxContacts.CornerContactMeasures | src/sources/CollisionDetector.cpp:530-535 | the corner contact is valid at the closest point with penetration its distance from the corner |
| BoxContacts.CornerContactInBox | src/sources/CollisionDetector.cpp:413-432 | the corner's closest point lies in a |
| BoxContacts.InsideCornerHasNoDepth | src/sources/CollisionDetector.cpp:518-535 | when the nearest corner is inside a and the corner contact wins, the penetration is 0 |
| Enclosures.SphereEnclosingSphereSquared | src/sources/CollisionDetector.cpp:606-616 | the test as written holds exactly when \|c2 - c1\| <= r2 + epsilon - r1: the second sphere holds the first |
| Enclosures.SphereEnclosingSphereHoldsBall | src/sources/CollisionDetector.cpp:606-616 | when it passes, every point of the first ball is in the second, widened by epsilon |
| Enclosures.SphereEnclosingSphereReversed | src/sources/CollisionDetector.cpp:606-616 | a large sphere around a smaller concentric one is refused, though it holds it, and the corrected test accepts it |
| Enclosures.SphereEnclosingSphereCorrectedDual | src/sources/CollisionDetector.cpp:606-616 | the corrected test is the test as written with the spheres exchanged |
| Enclosures.SphereEnclosingSphereCorrectedHoldsBall | src/sources/CollisionDetector.cpp:606-616 | when the corrected test passes, every point of the second ball is in the first, widened by epsilon |
| Enclosures.SphereEnclosingCapsuleSquared | src/sources/CollisionDetector.cpp:618-633 | the test holds exactly when both ends of the line are within r_s + epsilon - r_c of the center |
| Enclosures.SphereEnclosingCapsuleHoldsCapsule | src/sources/CollisionDetector.cpp:618-633 | when it passes, every point of the capsule is in the sphere widened by epsilon |
| Enclosures.SphereEnclosingObbSteps | src/sources/CollisionDetector.cpp:635-667 | the corner loop returns the test |
| Enclosures.SphereEnclosingObbIff | src/sources/CollisionDetector.cpp:635-667 | the test holds exactly when every box corner is within r^2 + epsilon of the center |
| Enclosures.SphereEnclosingObbFromBox | src/sources/CollisionDetector.cpp:635-667 | whatever the box's isEnclosedByVolume accepts, the detector accepts |
| Enclosures.SphereEnclosingObbHoldsCenter | src/sources/CollisionDetector.cpp:635-667 | an accepted box has its center within the radius |
| Enclosures.CapsuleEnclosingSphereAgrees | src/sources/CollisionDetector.cpp:669-681 | the detector's test is the capsule's own test with the radius widened by epsilon |
| Enclosures.CapsuleEnclosingSphereHoldsBall | src/sources/CollisionDetector.cpp:669-681 | when it passes, every point of the ball is within r + epsilon of the line |
| Enclosures.CapsuleEnclosingCapsuleAgrees | src/sources/CollisionDetector.cpp:683-699 | the detector's test is the capsule's own test with the radius widened by epsilon |
| Enclosures.CapsuleEnclosingCapsuleHoldsCapsule | src/sources/CollisionDetector.cpp:683-699 | when it passes, every point of the inner capsule is within r + epsilon of the line |
| Enclosures.CapsuleEnclosingObbSteps | src/sources/CollisionDetector.cpp:701-733 | the corner loop returns the test |
| Enclosures.CapsuleEnclosingObbFromBox | src/sources/CollisionDetector.cpp:701-733 | whatever the box's isEnclosedByVolume accepts, the detector accepts |
| Enclosures.CapsuleEnclosingObbHoldsCenter | src/sources/CollisionDetector.cpp:701-733 | an accepted box has its center within the radius of the line |
| BoxEnclosures.CheckFrameWithin | src/sources/CollisionDetector.cpp:735-789 | the loop is true exactly when every turned test point lies within the extents widened by epsilon |
| BoxEnclosures.ObbEnclosingSphereSteps | src/sources/CollisionDetector.cpp:735-789 | the routine returns the test |
| BoxEnclosures.ObbEnclosingSphereHoldsCenter | src/sources/CollisionDetector.cpp:735-789 | an accepted sphere has its center in the box widened by epsilon |
| BoxEnclosures.ObbEnclosingCapsuleSteps | src/sources/CollisionDetector.cpp:791-864 | the routine returns the test |
| BoxEnclosures.ObbEnclosingCapsuleHoldsLine | src/sources/CollisionDetector.cpp:791-864 | an accepted capsule has both ends of its line in the widened box |
| BoxEnclosures.ObbEnclosingObbSteps | src/sources/CollisionDetector.cpp:866-919 | the routine returns the test as written |
| BoxEnclosures.ObbEnclosingObbHoldsCenter | src/sources/CollisionDetector.cpp:866-919 | an accepted box, as written or corrected, has its center in the widened box |
| BoxEnclosures.ObbEnclosingObbCorrectedIff | src/sources/CollisionDetector.cpp:866-919 | the corrected test holds exactly when all eight corners of b are in the widened box a |
| BoxEnclosures.EnclosesObbPassesCorrected | src/sources/CollisionDetector.cpp:866-919 | whatever the box's corrected enclosesVolume accepts, the corrected detector accepts |
| BoxEnclosures.ObbEnclosingObbAgrees | src/sources/CollisionDetector.cpp:866-919 | for boxes with the same axes the test as written equals the corrected one |
| BoxEnclosures.DetectorAcceptsTurned | src/sources/CollisionDetector.cpp:866-919 | a turned box whose extents, taken in the wrong axis order, fit is accepted |
| BoxEnclosures.TurnedCornerProtrudes | src/sources/CollisionDetector.cpp:866-919 | yet such a box's corner 4 lies outside a, widened by epsilon, when its z extent exceeds a's x extent plus epsilon |
| BoxEnclosures.ObbEnclosingObbAcceptsProtrudingBox | src/sources/CollisionDetector.cpp:866-919 | a box of extents (2, 3, 1) accepts a turned box of extents (1, 2, 3) whose corner 4 sticks out, which the corrected test refuses |
| EnclosureDispatch.SphereEncloses | src/sources/CollisionDetector.cpp:555-570 | a sphere never encloses an axis-aligned box |
| EnclosureDispatch.CapsuleEncloses | src/sources/CollisionDetector.cpp:572-587 | a capsule never encloses an axis-aligned box |
| EnclosureDispatch.ObbEncloses | src/sources/CollisionDetector.cpp:589-604 | an oriented box never encloses an axis-aligned box |
| EnclosureDispatch.VolumeEncloses | src/sources/CollisionDetector.cpp:538-553 | no pair with an axis-aligned box is reported enclosing |
| EnclosureDispatch.BoxEnclosesHoldsCenter | src/sources/CollisionDetector.cpp:589-604 | what an oriented box is reported to enclose has its center, or its line's ends, in the widened box |
| EnclosureDispatch.RoundEnclosesBoxCenter | src/sources/CollisionDetector.cpp:555-587 | an oriented box a sphere or capsule is reported to enclose has its center within the radius |
| Lines.Line.constructor | src/sources/Line.cpp:3-6 | the constructor stores both end points |
| Lines.Line.Copy | src/sources/Line.cpp:8-16 | copy and move construction carry over both end points |
| Lines.Line.Assign | src/sources/Line.cpp:18-30 | copy and move assignment take both end points of the other line |
| Lines.Line.SetPointStart | src/sources/Line.cpp:36-38 | setPointStart changes the start and leaves the end |
| Lines.Line.SetPointEnd | src/sources/Line.cpp:44-46 | setPointEnd changes the end and leaves the start |
| Lines.Line.ClosestPtPointSegment | src/sources/Line.cpp:48-82 | the member form agrees with the static form, and the result is the point of the segment at the clamped parameter, no farther than either end point |
| Lines.Line.SquaredDistPointSegment | src/sources/Line.cpp:84-110 | the member and static forms agree; the value is the squared distance to the closest point of the segment, never negative |
| Lines.Line.ClosestPtSegmentSegment | src/sources/Line.cpp:112-170 | c1 = start + s d1 on this segment, c2 on line2 at parameters in [0, 1], and the result is \|c2 - c1\|^2 >= 0 |
| Lines.Line.ClosestPtSegmentSegmentTo | src/sources/Line.cpp:172-230 | the overload on two end points yields the same c1, c2 and result as on a line with those end points |
| Lines.Line.ClosestPtSegmentSegmentOf | src/sources/Line.cpp:232-290 | the static overload on two lines yields the same c1, c2 and result |
| Lines.Line.ClosestPtSegmentSegmentFrom | src/sources/Line.cpp:292-350 | the static overload on two points and a line yields the same c1, c2 and result |
| Lines.Line.ClosestPtSegmentSegmentOnto | src/sources/Line.cpp:352-410 | the static overload on a line and two points yields the same c1, c2 and result |
| Triangles.Triangle.constructor | src/sources/Triangle.cpp:3-7 | the three-point constructor stores v1 and v2, and v2 again as the third vertex |
| Triangles.Triangle.Copy | src/sources/Triangle.cpp:9-19 | copy and move construction carry over all three vertices |
| Triangles.Triangle.Assign | src/sources/Triangle.cpp:21-35 | copy and move assignment take all three vertices |
| Triangles.Triangle.SetVertex1 | src/sources/Triangle.cpp:41-43 | setVertex1 changes only the first vertex |
| Triangles.Triangle.SetVertex2 | src/sources/Triangle.cpp:49-51 | setVertex2 changes only the second vertex |
| Triangles.Triangle.SetVertex3 | src/sources/Triangle.cpp:57-59 | setVertex3 changes only the third vertex |
| Triangles.Triangle.GetNormal | src/sources/Triangle.cpp:61-67 | the member and static forms agree, and the normal is orthogonal to v2 - v1 and v3 - v2 |
| Triangles.Triangle.BarycentricCoord | src/sources/Triangle.cpp:69-95 | the member and static forms agree; the coordinates sum to 1 and are undefined exactly for a degenerate triangle |
| Triangles.Triangle.IsWithinTriangle | src/sources/Triangle.cpp:97-111 | holds exactly when the coordinates exist with v >= 0, w >= 0 and v + w <= 1 |
| Triangles.Triangle.ClosestPtPointTriangleOf | src/sources/Triangle.cpp:113-203 | the member and static forms agree, in each vertex region the result is that vertex itself, and the result is always a convex combination of the vertices |
| Triangles.Triangle.IsSegmentIntersecting | src/sources/Triangle.cpp:228-249 | the verdict and the point c agree with the GeometryUtils routine; a segment shorter than epsilon sets c := start and returns isWithinTriangle(start) |
| Triangles.Triangle.IsSegmentIntersectingLine | src/sources/Triangle.cpp:205-226 | the overload taking a Line tests that line's end points |
| Triangles.Triangle.ClosestPtSegmentTriangleOf | src/sources/Triangle.cpp:350-401 | the result is \|c2 - c1\|^2 >= 0, 0 with c2 = c1 on a hit, and otherwise at most every candidate's squared distance |
| Triangles.Triangle.ClosestPtSegmentTriangleLine | src/sources/Triangle.cpp:297-348 | the overload taking a Line gives the same result for that line's end points |
| Triangles.ConstructedTriangleIsDegenerate | src/sources/Triangle.cpp:3-7 | a triangle built by the three-point constructor has v3 = v2, a zero Gram determinant, and contains no point by isWithinTriangle |
| Triangles.Triangle.Corrected | src/sources/Triangle.cpp:3-7 | the constructor as evidently intended stores each vertex from its own argument |
| Triangles.ConstructedCorrectedHoldsItsPoints | src/sources/Triangle.cpp:3-7 | a triangle built by the corrected constructor from non-degenerate points holds the point with weights (v, w) exactly when v, w >= 0 and v + w <= 1 |
| Planes.Plane.ClosestPt | src/sources/Plane.cpp:39-47 | closestPtPointPlane returns q with n . q = d when n is not zero, and returns p itself when p is on the plane |
| Planes.Plane.IsOutside | src/sources/Plane.cpp:49-55 | isPointOutsideOfPlane holds exactly when \|p . n - d\| > epsilon |
| Planes.Plane.OnOppositeSides | src/sources/Plane.cpp:57-69 | the test as written is the opposite-sides test of the plane n . x = -d, and it is symmetric in the two points |
| Planes.PlaneFromPoints | src/sources/Plane.cpp:5-8 | n = (p2 - p1) x (p3 - p1) and d = n . p1, and all three points satisfy n . p = d |
| Planes.PlaneFromPointsFixesVertices | src/sources/Plane.cpp:5-8 | a plane from three non-collinear points projects each of them onto itself and finds none outside |
| BoundingSpheres.ActualRadius | src/sources/BoundingSphere.cpp:117-120 | getActualRadius is at least \|s_i\| r on every axis and equal to one of them: their maximum |
| BoundingSpheres.ActualRadiusNonNegative | src/sources/BoundingSphere.cpp:117-120 | a non-negative radius gives a non-negative actual radius |
| BoundingSpheres.ActualRadiusUnitScale | src/sources/BoundingSphere.cpp:117-120 | under a scale of unit magnitude on every axis the actual radius is the radius |
| BoundingSpheres.ActualRadiusMonotone | src/sources/BoundingSphere.cpp:117-120 | a larger radius never gives a smaller actual radius |
| BoundingSpheres.BoundingSphere.constructor | src/sources/BoundingSphere.cpp:3-8 | the constructor stores radius, name and transform, with no children and no shader |
| BoundingSpheres.BoundingSphere.Copy | src/sources/BoundingSphere.cpp:10-28 | copy and move construction carry over radius, name, transform, children and shader |
| BoundingSpheres.BoundingSphere.Assign | src/sources/BoundingSphere.cpp:30-53 | copy and move assignment take radius, name, transform, children and shader |
| BoundingSpheres.BoundingSphere.SetRadius | src/sources/BoundingSphere.cpp:113-115 | setRadius changes the radius, which getRadius reads back, and leaves the rest |
| BoundingSpheres.BoundingSphere.GetActualRadius | src/sources/BoundingSphere.cpp:117-120 | the member reads the radius and the transform's scale, and is non-negative for a non-negative radius |
| Contacts.Contact.constructor | src/sources/Contact.cpp:3-13 | the constructor stores point, normal, penetration and validity unchanged |
| Contacts.Contact.Copy | src/sources/Contact.cpp:15-27 | copy and move construction reproduce all four fields |
| Contacts.Contact.Assign | src/sources/Contact.cpp:29-45 | copy and move assignment reproduce all four fields |
| Contacts.Contact.SetContactPoint | src/sources/Contact.cpp:47-53 | setContactPoint changes only the point, which getContactPoint reads back |
| Contacts.Contact.SetContactNormal | src/sources/Contact.cpp:55-61 | setContactNormal changes only the normal, which getContactNormal reads back |
| Contacts.Contact.SetPenetration | src/sources/Contact.cpp:63-69 | setPenetration changes only the penetration, which getPenetration reads back |
| Contacts.Contact.SetContactValidity | src/sources/Contact.cpp:71-77 | setContactValidity changes only the validity, which getContactValidity reads back |
| SceneObjects.SceneObject.constructor | src/sources/SceneObject.cpp:3-6 | the constructor stores name and transform and starts with no children |
| SceneObjects.SceneObject.Copy | src/sources/SceneObject.cpp:8-18 | copy and move construction carry over name, transform and the child sequence |
| SceneObjects.SceneObject.Assign | src/sources/SceneObject.cpp:24-36 | copy and move assignment take name, transform and the child sequence |
| SceneObjects.SceneObject.Destroy | src/sources/SceneObject.cpp:20-22 | the destructor empties the child list |
| SceneObjects.SceneObject.SetTransform | src/sources/SceneObject.cpp:48-50 | setTransform changes only the transform |
| SceneObjects.SceneObject.SetName | src/sources/SceneObject.cpp:56-58 | setName changes only the name |
| SceneUtils.IndexOf | src/sources/SceneUtils.cpp:144-153 | the index is -1 exactly when the child is absent, and otherwise the first position holding it |
| SceneUtils.FindChildIndex | src/sources/SceneUtils.cpp:144-153 | the iterator loop returns IndexOf of the child list |
| SceneUtils.RemoveFirstCounts | src/sources/SceneUtils.cpp:121-128 | removing a child takes exactly one occurrence out when there is one, and shortens the list by one only then |
| SceneUtils.RemoveChild | src/sources/SceneUtils.cpp:121-128 | the loop erases the first equal element only, keeps the order of the others, and leaves name and transform |
| SceneUtils.AppendedMovesToEnd | src/sources/SceneUtils.cpp:106-107 | after appending, the child is last, the rest is the list with its first occurrence removed, the length grows only if it was absent, and a list without repeats stays without repeats |
| SceneUtils.AppendedMembers | src/sources/SceneUtils.cpp:106-107 | after appending, an object is a child exactly when it is the appended one or was a child before |
| SceneUtils.AppendChild | src/sources/SceneUtils.cpp:101-108 | appending an object to itself changes nothing; otherwise the child moves to (or is added at) the end |
| SceneUtils.InsertChild | src/sources/SceneUtils.cpp:110-119 | with the index at most the size after removal (the only case the source defines), insertChild always ends with the child last, as appendChild does |
| SceneUtils.InsertChildMakesCycle | src/sources/SceneUtils.cpp:110-119 | inserting an object into its own child list succeeds and leaves the object among its own children |
| SceneUtils.InsertChildCorrected | src/sources/SceneUtils.cpp:110-119 | insertChild with appendChild's self check: inserting an object into itself changes nothing, and an object that was not its own child does not become one |
| SceneUtils.RemoveChildAt | src/sources/SceneUtils.cpp:130-137 | removeChild(index) with index < size drops the last child, whichever index is given |
| SceneUtils.ReplaceChild | src/sources/SceneUtils.cpp:139-142 | replaceChild drops the last child and then appends the new one |
| SceneUtils.ReplaceChildDropsLast | src/sources/SceneUtils.cpp:139-142 | replacing index 0 of [a, b, c] by d gives [a, b, d]: the child at the index survives |
| SceneUtils.DecimalString | src/sources/SceneUtils.cpp:155-157 | to_string gives one decimal digit or more, and a single one exactly below 10 |
| SceneUtils.DecimalStringInjective | src/sources/SceneUtils.cpp:155-157 | different counter values give different ids |
| SceneUtils.IdCounter.CreateId | src/sources/SceneUtils.cpp:155-157 | createId returns the decimal form of the counter and then increments it, wrapping at the unsigned long range |
| SceneUtils.IdsDiffer | src/sources/SceneUtils.cpp:155-157 | ids drawn fewer than 2^64 calls apart differ |
| SceneGraphs.FirstNamed | src/sources/SceneGraph.cpp:17-31 | the first node with the name, which carries the name, or none exactly when no node has it |
| SceneGraphs.FirstNamedAppend | src/sources/SceneGraph.cpp:22-28 | a match in an earlier part of the search order wins over any later one |
| SceneGraphs.GetSceneObject | src/sources/SceneGraph.cpp:17-31 | the recursive search returns the first match in pre-order, children in index order: the node itself when its name matches, null when no node of the subtree matches |
| SceneGraphs.PreOrderAllPrefix | src/sources/SceneGraph.cpp:22-28 | once the first k children's subtrees hold a match, the later children do not change the result |
| SceneGraphs.SceneGraph.constructor | src/sources/SceneGraph.cpp:3-5 | the constructor stores the root, with no camera and the default fov 45, width and height 512, nearZ 0.1 and farZ 100 |
| SceneGraphs.SceneGraph.FindSceneObject | src/sources/SceneGraph.cpp:13-15 | getSceneObject(name) searches from the root |
| SceneGraphs.SceneGraph.SetCamera | src/sources/SceneGraph.cpp:61-63 | setCamera changes only the camera, which getCamera reads back |
| SceneGraphs.SceneGraph.SetFov | src/sources/SceneGraph.cpp:65-67 | setFov changes only the fov, which getFov reads back |
| SceneGraphs.SceneGraph.SetWidth | src/sources/SceneGraph.cpp:69-71 | setWidth changes only the width, which getWidth reads back |
| SceneGraphs.SceneGraph.SetHeight | src/sources/SceneGraph.cpp:73-75 | setHeight changes only the height, which getHeight reads back |
| SceneGraphs.SceneGraph.SetNearZ | src/sources/SceneGraph.cpp:77-79 | setNearZ changes only nearZ, which getNearZ reads back |
| SceneGraphs.SceneGraph.SetFarZ | src/sources/SceneGraph.cpp:81-83 | setFarZ changes only farZ, which getFarZ reads back |

## Left out

- Floating point: every `GLfloat` is an exact `real`, so rounding, overflow, infinities and NaN are not modelled.
- GeometryTriangle.Barycentric: a degenerate triangle makes the engine divide by zero and compute NaN coordinates; the model returns `None` and treats it as "not within", which is what every NaN comparison gives.
- GeometryTriangle.ClosestPtPointTriangle: a zero denominator in an edge or face region (a degenerate edge or triangle) gives the engine NaN coordinates; the model returns `None` there.
- GeometryPlane.ClosestPtPointPlane: a zero normal makes the engine divide by zero (GeometryUtils.cpp:310, Plane.cpp:40, 45) and return NaN coordinates; the model returns `None`. Where the segment-triangle query projects an end point, a `None` projection adds no candidate, as the NaN point fails the engine's within test.
- Planes.Plane.ClosestPt: the same zero-normal case, through `GeometryPlane.ClosestPtPointPlane`.
- GeometryTriangle.SegmentTriangleHit: for a segment lying in the triangle's plane, or a triangle with a zero normal, the engine writes NaN into `c`; the model leaves `c` as it was.
- Collisions.Direction: `offset / dist` with `dist = 0` gives NaN in the engine (CollisionDetector.cpp:105, 137, 168, 524); the model gives the zero vector.
- `glm::sqrt` and `glm::length` are the function parameter `sqrt`; properties that need a true root assume `IsSqrt(sqrt)`.
- `Transform`, the world-space centers, axes, scales, capsule end points and the upper-left 3 x 3 of the model matrix are inputs. `Transform` itself is not part of this model.
- BoxEnclosures.ObbEnclosingSphere: the sphere and capsule branches build `bAxis` from the rotation of the sphere's or the capsule's own transform, which is the input `Axes`. Only containment of the sphere's center is proved, not of the whole ball.
- BoxEnclosures.ObbEnclosingCapsule: only containment of the two line ends is proved, not of the whole capsule.
- AlignedBoxes.AxisAlignedBoundingBox.constructor: the refitted half extents are initialised from themselves in the source, so the model says nothing of their first value.
- Capsules.BoundingCapsule.Copy: the name and the transform are initialised from the new object's own uninitialised members, so the model says nothing of them.
- AlignedBoxes.AxisAlignedBoundingBox.Update: `SceneObject::update` is not part of this model, so the new transform it stores is left unstated. The capsule's `update` only forwards to it and has no member here.
- SceneUtils.InsertChild: an index past the end after the removal is undefined behaviour in `vector::insert`, so it is a precondition.
- SceneUtils.RemoveChildAt: an index at or past the end erases past the end, which is undefined behaviour, so it is a precondition.
- SceneUtils.ReplaceChild: it inherits both preconditions above.
- SceneUtils.IdCounter.CreateId: `unsigned long` is taken to be 64 bits wide (LP64, as on Linux and macOS); on an LLP64 target such as MSVC it is 32 bits and the counter wraps at 2^32 instead.
- SceneGraphs.GetSceneObject: the search runs on a value snapshot of the tree. A tree with a cycle or a null child pointer has no such snapshot and is not covered; the cycle `insertChild` can create is shown by `SceneUtils.InsertChildMakesCycle`.
- The axis-aligned box against an oriented box: each volume hands the question to the other, so the engine recurses without end. The model records each hand-over as `Delegate` and does not follow the chain.
- Rendering (`draw`, `updateVBO`, VAO and VBO handles, vertex buffers), the `Rigidbody` physics and the transform helpers of `SceneUtils` are not part of this model: they compute no geometry that the collision kernel reads.
- Concurrency and memory management (`move`, `shared_ptr`, destructors) are not modelled; move construction and move assignment are modelled as copies.

## Findings

| source | as written | input that shows it | evidently intended | confidence | as-written member | corrected member |
|---|---|---|---|---|---|---|
| src/sources/OrientedBoundingBox.cpp:328 | the A0 x B1 cross-axis test weighs `absR[2][0]` with b's y half extent instead of its x half extent | the unit cube, and a box at (0, 2.5, 0) with axes (y, z, x) and half extents (2, 0.5, 1); both contain (0, 0.75, 0) | b's radius `bh.x absR[2][0] + bh.z absR[0][0]`, so boxes that share a point are never separated | not executed | ObbSeparation.IntersectsObbMissesOverlap | ObbSeparation.NoSeparatingAxisSound |
| src/sources/CollisionDetector.cpp:281-286 | the rotation matrix is filled as `R[i][j] = a_i . b_j`, the transpose of the one the separating-axis tests expect | a flat box and a tilted zero-width box that both contain (-2, 1, 1) | `R[j][i] = a_i . b_j`, so boxes that share a point get a valid contact | not executed | BoxContacts.ObbObbMissesTouchingBoxes | BoxContacts.ObbObbCorrectedTouching |
| src/sources/CollisionDetector.cpp:606-616 | `isSphereEnclosingSphere(a, b)` tests whether b holds a | a sphere of radius 2 around a concentric sphere of radius 1 | whether the first sphere holds the second | not executed | Enclosures.SphereEnclosingSphereReversed | Enclosures.SphereEnclosingSphereCorrectedHoldsBall |
| src/sources/AxisAlignedBoundingBox.cpp:297-312 | the box is compared with the cube around the sphere, not the sphere | the cube of half side 1 and the unit sphere, both at the origin; the corner (1, 1, 1) is outside the sphere | every corner of the box within the radius | not executed | AlignedBoxes.IsEnclosedBySphereAcceptsCube | AlignedBoxes.IsEnclosedBySphereCorrectedHoldsBox |
| src/sources/OrientedBoundingBox.cpp:489-537 | b's corners, less a's center, are mapped by `R[j][i] = a_i . b_j` instead of projected on a's axes | a with half extents (0.5, 2, 0.5), and a turned b with half extents (1.5, 0.25, 0.25) at the same center | the offsets projected on a's axes, as the sphere branch does, so the test holds exactly when b's corners all lie in a | not executed | ObbEnclosure.EnclosesObbMissesEnclosure | ObbEnclosure.EnclosesObbCorrectedIff |
| src/sources/OrientedBoundingBox.cpp:608-657 | a's corners, less b's center, are mapped by `R[j][i] = b_j . a_i` instead of projected on b's axes | a with half extents (0.25, 1.5, 0.25), and a turned b with half extents (1.5, 0.5, 0.5) at the same center | the offsets projected on b's axes, as the sphere branch does, so the test holds exactly when a's corners all lie in b | not executed | ObbEnclosure.IsEnclosedByObbMissesEnclosure | ObbEnclosure.IsEnclosedByObbCorrectedIff |
| src/sources/CollisionDetector.cpp:866-919 | b's corners are mapped with the transposed rotation matrix | a aligned with half extents (2, 3, 1), and a turned b with half extents (1, 2, 3) at the same center; b's corner 4 sticks out of a | `R[j][i] = a_i . b_j`, so the test holds exactly when b's corners lie in a | not executed | BoxEnclosures.ObbEnclosingObbAcceptsProtrudingBox | BoxEnclosures.ObbEnclosingObbCorrectedIff |
| src/sources/OrientedBoundingBox.cpp:206-242 | a projection below `-h` is clamped to `+h` | a sphere centred just beyond a box's -x face that reaches the face | the clamp to `[-h, h]` | not executed | OrientedBoxes.IntersectsSphereMissesNearFace | OrientedBoxes.IntersectsSphereCorrectedIff |
| src/sources/GeometryUtils.cpp:323-333 | the plane offset is `n . p + d` where the engine's other plane routines use `n . p - d` | the plane x = 1, the origin and (2, 0, 0) | `n . p - d`, so points on opposite sides are reported and the segment between them crosses the plane | not executed | GeometryPlane.OppositeSidesAsWrittenMissesSeparation | GeometryPlane.OppositeSidesCross |
| src/sources/Triangle.cpp:3-7 | the constructor stores `v2` as the third vertex | any triangle with `v3 != v2` | the third vertex is `v3` | not executed | Triangles.ConstructedTriangleIsDegenerate | Triangles.ConstructedCorrectedHoldsItsPoints |
| src/sources/SceneUtils.cpp:110-119 | `insertChild` has no self check | `insertChild(obj, 0, obj)` | the self check of `appendChild`, so no object becomes its own child | not executed | SceneUtils.InsertChildMakesCycle | SceneUtils.InsertChildCorrected |
