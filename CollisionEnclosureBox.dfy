// The collision detector's enclosure tests with an oriented box as the
// enclosing volume (CollisionDetector::isOBBEnclosingSphere,
// isOBBEnclosingCapsule and isOBBEnclosingOBB). Each fills a matrix R with
// R[i][j] = axis_i . bAxis_j, takes the enclosed volume's center (or the
// ends of its line) in the box's frame as t, and checks t + R * p against
// the half extents, up to GeometryUtils::epsilon, for eight test points p
// of the form (+/-x, +/-y, +/-z). As glm stores R column-major, R * p is
// bAxis_r . (p.x axis_0 + p.y axis_1 + p.z axis_2) on row r: the
// enclosed volume's own axes are read as the box's and the other way
// round. For a sphere or a capsule this is only a turned test cube; for
// two boxes it tests the wrong points.

module BoxEnclosures {
  import opened Vectors
  import opened GeometryBox
  import opened Volumes
  import opened Frames
  import opened ObbSeparation
  import opened ObbEnclosure
  import opened BoxContacts

  /**
   * The normalized rotation axes of a sphere's or a capsule's transform,
   * the engine's bAxis. They are computed from the transform's model
   * matrix, outside this model, and given as they are.
   */
  datatype Axes = Axes(x: Vec3, y: Vec3, z: Vec3)

  // ---------------------------------------------------------------------
  // The shared loop
  // ---------------------------------------------------------------------

  /** The per-point test passing: pt within [-h, h] on every axis, up to epsilon. */
  predicate WithinSlack(pt: Vec3, h: Vec3) {
    pt.x - h.x <= Epsilon && pt.x + h.x >= -Epsilon &&
    pt.y - h.y <= Epsilon && pt.y + h.y >= -Epsilon &&
    pt.z - h.z <= Epsilon && pt.z + h.z >= -Epsilon
  }

  /** p's box coordinates are within the half extents up to epsilon: p is in the box grown by epsilon. */
  predicate InSlackBox(o: ObbGeom, p: Vec3) {
    WithinSlack(Projections(p, o.center, o.xAxis, o.yAxis, o.zAxis), o.extents)
  }

  /** Every test point p, as t + R * p, passes the per-point test. */
  predicate FrameWithin(R: Mat3, t: Vec3, pts: seq<Vec3>, h: Vec3) {
    forall k :: 0 <= k < |pts| ==> WithinSlack(Add(t, MulVec(R, pts[k])), h)
  }

  /** The loop over the test points, false at the first point outside. */
  method CheckFrameWithin(R: Mat3, t: Vec3, pts: seq<Vec3>, h: Vec3) returns (b: bool)
    ensures b <==> FrameWithin(R, t, pts, h)
  {
    for i := 0 to |pts|
      invariant forall k :: 0 <= k < i ==> WithinSlack(Add(t, MulVec(R, pts[k])), h)
    {
      var pt := Add(t, MulVec(R, pts[i]));
      if pt.x - h.x > Epsilon || pt.x + h.x < -Epsilon ||
         pt.y - h.y > Epsilon || pt.y + h.y < -Epsilon ||
         pt.z - h.z > Epsilon || pt.z + h.z < -Epsilon {
        return false;
      }
    }
    return true;
  }

  /** The eight test points (+/-h.x, +/-h.y, +/-h.z), in the engine's order. */
  function SignedCorners(h: Vec3): (ps: seq<Vec3>)
    ensures |ps| == 8
  {
    MinMaxCorners(Neg(h), h)
  }

  /** Test point k is the sign vector k scaled by h, component by component. */
  lemma SignedCornerAt(h: Vec3, k: nat)
    requires k < 8
    ensures var s := CornerSigns()[k];
            IsSigns(s) && SignedCorners(h)[k] == Vec3(s.x * h.x, s.y * h.y, s.z * h.z)
  {
  }

  /** With h >= 0, every test point lies within [-h, h]. */
  lemma SignedCornerWithin(h: Vec3, k: nat)
    requires k < 8 && h.x >= 0.0 && h.y >= 0.0 && h.z >= 0.0
    ensures WithinExtents(SignedCorners(h)[k], h)
  {
    var s := CornerSigns()[k];
    SignedCornerAt(h, k);
    SignedWithin(s.x, h.x);
    SignedWithin(s.y, h.y);
    SignedWithin(s.z, h.z);
  }

  /** With h >= 0, all eight test points lie within [-h, h]. */
  lemma SignedCornersWithin(h: Vec3)
    requires h.x >= 0.0 && h.y >= 0.0 && h.z >= 0.0
    ensures forall k {:trigger SignedCorners(h)[k]} :: 0 <= k < 8 ==> WithinExtents(SignedCorners(h)[k], h)
  {
    forall k | 0 <= k < 8
      ensures WithinExtents(SignedCorners(h)[k], h)
    {
      SignedCornerWithin(h, k);
    }
  }

  // ---------------------------------------------------------------------
  // The three tests
  // ---------------------------------------------------------------------

  /** The matrix of the sphere and capsule branches: R[i][j] = axis_i . bAxis_j with bAxis the transform's axes. */
  function TurnedFrame(o: ObbGeom, ax: Axes): Mat3 {
    FrameMatrix(ax.x, ax.y, ax.z, o.xAxis, o.yAxis, o.zAxis)
  }

  /** isOBBEnclosingSphere: the cube of half side r around the center, turned by R. */
  predicate ObbEnclosingSphere(o: ObbGeom, s: SphereGeom, ax: Axes) {
    FrameWithin(TurnedFrame(o, ax), Projections(s.center, o.center, o.xAxis, o.yAxis, o.zAxis),
                SignedCorners(Splat(s.WorldRadius())), o.extents)
  }

  /** isOBBEnclosingCapsule: the same cube around each end of the actual line. */
  predicate ObbEnclosingCapsule(o: ObbGeom, k: CapsuleGeom, ax: Axes) {
    var R, pts := TurnedFrame(o, ax), SignedCorners(Splat(k.actualRadius));
    FrameWithin(R, Projections(k.actualStart, o.center, o.xAxis, o.yAxis, o.zAxis), pts, o.extents) &&
    FrameWithin(R, Projections(k.actualEnd, o.center, o.xAxis, o.yAxis, o.zAxis), pts, o.extents)
  }

  /** isOBBEnclosingOBB as written: b's half-extent corners mapped by the transposed frame matrix. */
  predicate ObbEnclosingObb(a: ObbGeom, b: ObbGeom) {
    FrameWithin(DetectorFrame(a, b), OffsetInA(a, b), SignedCorners(b.extents), a.extents)
  }

  /** The same test with R[j][i] = a_i . b_j, the matrix that maps b's box coordinates into a's frame. */
  predicate ObbEnclosingObbCorrected(a: ObbGeom, b: ObbGeom) {
    FrameWithin(FrameOf(a, b), OffsetInA(a, b), SignedCorners(b.extents), a.extents)
  }

  /** isOBBEnclosingSphere step by step: fill R, bring t into the box's frame, run the loop. */
  method ObbEnclosingSphereSteps(o: ObbGeom, s: SphereGeom, ax: Axes) returns (b: bool)
    ensures b == ObbEnclosingSphere(o, s, ax)
  {
    var axis := [o.xAxis, o.yAxis, o.zAxis];
    var R := FillDetectorFrame(axis, [ax.x, ax.y, ax.z]);
    var t := Sub(s.center, o.center);
    t := Vec3(Dot(t, axis[0]), Dot(t, axis[1]), Dot(t, axis[2]));
    var bRadius := s.WorldRadius();
    var testPoints := SignedCorners(Splat(bRadius));
    b := CheckFrameWithin(R, t, testPoints, o.extents);
  }

  /** isOBBEnclosingCapsule step by step: one loop per end of the line. */
  method ObbEnclosingCapsuleSteps(o: ObbGeom, k: CapsuleGeom, ax: Axes) returns (b: bool)
    ensures b == ObbEnclosingCapsule(o, k, ax)
  {
    var axis := [o.xAxis, o.yAxis, o.zAxis];
    var R := FillDetectorFrame(axis, [ax.x, ax.y, ax.z]);
    var t1, t2 := Sub(k.actualStart, o.center), Sub(k.actualEnd, o.center);
    t1 := Vec3(Dot(t1, axis[0]), Dot(t1, axis[1]), Dot(t1, axis[2]));
    t2 := Vec3(Dot(t2, axis[0]), Dot(t2, axis[1]), Dot(t2, axis[2]));
    var testPoints := SignedCorners(Splat(k.actualRadius));
    b := CheckFrameWithin(R, t1, testPoints, o.extents);
    if b {
      b := CheckFrameWithin(R, t2, testPoints, o.extents);
    }
  }

  /** isOBBEnclosingOBB step by step. */
  method ObbEnclosingObbSteps(a: ObbGeom, bObb: ObbGeom) returns (b: bool)
    ensures b == ObbEnclosingObb(a, bObb)
  {
    var axis := [a.xAxis, a.yAxis, a.zAxis];
    var R := FillDetectorFrame(axis, [bObb.xAxis, bObb.yAxis, bObb.zAxis]);
    var t := Sub(bObb.center, a.center);
    t := Vec3(Dot(t, axis[0]), Dot(t, axis[1]), Dot(t, axis[2]));
    var testPoints := SignedCorners(bObb.extents);
    b := CheckFrameWithin(R, t, testPoints, a.extents);
  }

  // ---------------------------------------------------------------------
  // The center of the enclosed volume
  // ---------------------------------------------------------------------

  /** R * (-v) = -(R * v). */
  lemma MulVecNeg(R: Mat3, v: Vec3)
    ensures MulVec(R, Neg(v)) == Neg(MulVec(R, v))
  {
  }

  /**
   * Test points 0 and 4 are -h and h: when both pass, so does t, whatever
   * the matrix.
   */
  lemma FrameWithinHoldsOffset(R: Mat3, t: Vec3, bh: Vec3, h: Vec3)
    requires FrameWithin(R, t, SignedCorners(bh), h)
    ensures WithinSlack(t, h)
  {
    var pts := SignedCorners(bh);
    assert pts[0] == Neg(bh) && pts[4] == bh;
    MulVecNeg(R, bh);
    assert WithinSlack(Add(t, MulVec(R, pts[0])), h) && WithinSlack(Add(t, MulVec(R, pts[4])), h);
  }

  /** A box that passes the sphere test holds the sphere's center, up to epsilon. */
  lemma ObbEnclosingSphereHoldsCenter(o: ObbGeom, s: SphereGeom, ax: Axes)
    requires ObbEnclosingSphere(o, s, ax)
    ensures InSlackBox(o, s.center)
  {
    FrameWithinHoldsOffset(TurnedFrame(o, ax), Projections(s.center, o.center, o.xAxis, o.yAxis, o.zAxis),
                           Splat(s.WorldRadius()), o.extents);
  }

  /** A box that passes the capsule test holds both ends of the capsule's line, up to epsilon. */
  lemma ObbEnclosingCapsuleHoldsLine(o: ObbGeom, k: CapsuleGeom, ax: Axes)
    requires ObbEnclosingCapsule(o, k, ax)
    ensures InSlackBox(o, k.actualStart) && InSlackBox(o, k.actualEnd)
  {
    var R, bh := TurnedFrame(o, ax), Splat(k.actualRadius);
    FrameWithinHoldsOffset(R, Projections(k.actualStart, o.center, o.xAxis, o.yAxis, o.zAxis), bh, o.extents);
    FrameWithinHoldsOffset(R, Projections(k.actualEnd, o.center, o.xAxis, o.yAxis, o.zAxis), bh, o.extents);
  }

  /** A box that passes the box test, as written or corrected, holds the other box's center, up to epsilon. */
  lemma ObbEnclosingObbHoldsCenter(a: ObbGeom, b: ObbGeom)
    requires ObbEnclosingObb(a, b) || ObbEnclosingObbCorrected(a, b)
    ensures InSlackBox(a, b.center)
  {
    if ObbEnclosingObb(a, b) {
      FrameWithinHoldsOffset(DetectorFrame(a, b), OffsetInA(a, b), b.extents, a.extents);
    } else {
      FrameWithinHoldsOffset(FrameOf(a, b), OffsetInA(a, b), b.extents, a.extents);
    }
  }

  // ---------------------------------------------------------------------
  // What the corrected box test means
  // ---------------------------------------------------------------------

  /**
   * t + FrameOf(a, b) * v is the point of b with box coordinates v, seen
   * in a's frame.
   */
  lemma FrameMapsPoint(a: ObbGeom, b: ObbGeom, v: Vec3)
    ensures Add(OffsetInA(a, b), MulVec(FrameOf(a, b), v))
         == Projections(PointOf(b, v), a.center, a.xAxis, a.yAxis, a.zAxis)
  {
    var w := Add(Add(Scale(v.x, b.xAxis), Scale(v.y, b.yAxis)), Scale(v.z, b.zAxis));
    FrameMatrixMaps(a.xAxis, a.yAxis, a.zAxis, b.xAxis, b.yAxis, b.zAxis, v);
    var d := Sub(b.center, a.center);
    assert Sub(PointOf(b, v), a.center) == Add(d, w);
    ProjectionOfSum(d, w, a.xAxis);
    ProjectionOfSum(d, w, a.yAxis);
    ProjectionOfSum(d, w, a.zAxis);
  }

  /** (d + w) . u = d . u + u . w. */
  lemma ProjectionOfSum(d: Vec3, w: Vec3, u: Vec3)
    ensures Dot(Add(d, w), u) == Dot(d, u) + Dot(u, w)
  {
  }

  /** Corner k of a box is the point whose box coordinates are test point k of its half extents. */
  lemma CornerIsPoint(b: ObbGeom, k: nat)
    requires k < 8
    ensures b.Corners()[k] == PointOf(b, SignedCorners(b.extents)[k])
  {
    var s := CornerSigns()[k];
    SignedCornerAt(b.extents, k);
    VertexIsPoint(b, s);
    assert b.Corners()[k] == Vertex(b.center, b.EdgeX(), b.EdgeY(), b.EdgeZ(), s);
  }

  /** The vertex of sign s of a box is its point with box coordinates (s.x h.x, s.y h.y, s.z h.z). */
  lemma VertexIsPoint(b: ObbGeom, s: Vec3)
    ensures Vertex(b.center, b.EdgeX(), b.EdgeY(), b.EdgeZ(), s)
         == PointOf(b, Vec3(s.x * b.extents.x, s.y * b.extents.y, s.z * b.extents.z))
  {
    ScaleScale(s.x, b.extents.x, b.xAxis);
    ScaleScale(s.y, b.extents.y, b.yAxis);
    ScaleScale(s.z, b.extents.z, b.zAxis);
  }

  /** The corrected box test holds exactly when every corner of b is in a grown by epsilon. */
  lemma ObbEnclosingObbCorrectedIff(a: ObbGeom, b: ObbGeom)
    ensures ObbEnclosingObbCorrected(a, b) <==> forall k :: 0 <= k < 8 ==> InSlackBox(a, b.Corners()[k])
  {
    var pts := SignedCorners(b.extents);
    forall k | 0 <= k < 8
      ensures WithinSlack(Add(OffsetInA(a, b), MulVec(FrameOf(a, b), pts[k])), a.extents)
          <==> InSlackBox(a, b.Corners()[k])
    {
      FrameMapsPoint(a, b, pts[k]);
      CornerIsPoint(b, k);
    }
  }

  /** Within the half extents is within them up to epsilon. */
  lemma InBoxInSlackBox(o: ObbGeom, p: Vec3)
    requires InBox(o, p)
    ensures InSlackBox(o, p)
  {
  }

  /**
   * A box that encloses another by the box's own corrected test
   * (enclosesVolume with a's axis frame) passes the detector's corrected
   * test.
   */
  lemma EnclosesObbPassesCorrected(a: ObbGeom, b: ObbGeom)
    requires EnclosesObbCorrected(a, b)
    ensures ObbEnclosingObbCorrected(a, b)
  {
    EnclosesObbCorrectedIff(a, b);
    forall k | 0 <= k < 8
      ensures InSlackBox(a, b.Corners()[k])
    {
      InBoxInSlackBox(a, b.Corners()[k]);
    }
    ObbEnclosingObbCorrectedIff(a, b);
  }

  /** Two boxes with the same axes: the transposed matrix is the same matrix and the test as written is the corrected one. */
  lemma ObbEnclosingObbAgrees(a: ObbGeom, b: ObbGeom)
    requires a.xAxis == b.xAxis && a.yAxis == b.yAxis && a.zAxis == b.zAxis
    ensures ObbEnclosingObb(a, b) == ObbEnclosingObbCorrected(a, b)
  {
    assert DetectorFrame(a, b) == FrameOf(a, b);
  }

  // ---------------------------------------------------------------------
  // The enclosures the box test as written gets wrong
  // ---------------------------------------------------------------------

  /** Against an aligned box a, the detector's matrix for a turned box b maps v to (v.y, v.z, v.x). */
  lemma DetectorTurnedMaps(a: ObbGeom, b: ObbGeom, v: Vec3)
    requires AlignedAxes(a) && TurnedAxes(b)
    ensures MulVec(DetectorFrame(a, b), v) == Vec3(v.y, v.z, v.x)
  {
  }

  /** Two boxes with the same center: b's center is at a's origin. */
  lemma SameCenterOffset(a: ObbGeom, b: ObbGeom)
    requires a.center == b.center
    ensures OffsetInA(a, b) == Zero
  {
    assert Sub(b.center, a.center) == Zero;
  }

  /**
   * The test as written accepts a turned box b whose half extents fit a's
   * in the order (y, z, x), whatever the corners of b.
   */
  lemma DetectorAcceptsTurned(a: ObbGeom, b: ObbGeom)
    requires AlignedAxes(a) && TurnedAxes(b) && a.center == b.center
    requires b.extents.x >= 0.0 && b.extents.y >= 0.0 && b.extents.z >= 0.0
    requires b.extents.y <= a.extents.x && b.extents.z <= a.extents.y && b.extents.x <= a.extents.z
    ensures ObbEnclosingObb(a, b)
  {
    DetectorTurnedPoints(a, b);
    DetectorRotatedAccepts(a, b);
  }

  /** The test as written accepts b when its frame sends every v to (v.y, v.z, v.x) and b's half extents fit a's in that order. */
  lemma DetectorRotatedAccepts(a: ObbGeom, b: ObbGeom)
    requires forall v {:trigger MulVec(DetectorFrame(a, b), v)} ::
               Add(OffsetInA(a, b), MulVec(DetectorFrame(a, b), v)) == Vec3(v.y, v.z, v.x)
    requires b.extents.x >= 0.0 && b.extents.y >= 0.0 && b.extents.z >= 0.0
    requires b.extents.y <= a.extents.x && b.extents.z <= a.extents.y && b.extents.x <= a.extents.z
    ensures ObbEnclosingObb(a, b)
  {
    RotatedCornersWithin(DetectorFrame(a, b), OffsetInA(a, b), b.extents, a.extents);
  }

  /** A map that sends every v to (v.y, v.z, v.x) passes the corners of hb against ha when hb fits ha in that order. */
  lemma RotatedCornersWithin(R: Mat3, t: Vec3, hb: Vec3, ha: Vec3)
    requires forall v {:trigger MulVec(R, v)} :: Add(t, MulVec(R, v)) == Vec3(v.y, v.z, v.x)
    requires hb.x >= 0.0 && hb.y >= 0.0 && hb.z >= 0.0
    requires hb.y <= ha.x && hb.z <= ha.y && hb.x <= ha.z
    ensures FrameWithin(R, t, SignedCorners(hb), ha)
  {
    SignedCornersWithin(hb);
    RotatedPointsWithin(R, t, SignedCorners(hb), hb, ha);
  }

  /**
   * A map that sends every v to (v.y, v.z, v.x) passes every point within
   * hb against ha when hb fits ha in the order (y, z, x).
   */
  lemma RotatedPointsWithin(R: Mat3, t: Vec3, pts: seq<Vec3>, hb: Vec3, ha: Vec3)
    requires forall v {:trigger MulVec(R, v)} :: Add(t, MulVec(R, v)) == Vec3(v.y, v.z, v.x)
    requires forall k :: 0 <= k < |pts| ==> WithinExtents(pts[k], hb)
    requires hb.y <= ha.x && hb.z <= ha.y && hb.x <= ha.z
    ensures FrameWithin(R, t, pts, ha)
  {
    forall k | 0 <= k < |pts|
      ensures WithinSlack(Add(t, MulVec(R, pts[k])), ha)
    {
      RotatedPointWithin(R, t, pts[k], hb, ha);
    }
  }

  /** A point v within hb that the map sends to (v.y, v.z, v.x) passes the test against ha. */
  lemma RotatedPointWithin(R: Mat3, t: Vec3, v: Vec3, hb: Vec3, ha: Vec3)
    requires Add(t, MulVec(R, v)) == Vec3(v.y, v.z, v.x)
    requires WithinExtents(v, hb)
    requires hb.y <= ha.x && hb.z <= ha.y && hb.x <= ha.z
    ensures WithinSlack(Add(t, MulVec(R, v)), ha)
  {
    RotatedWithin(v, hb, ha);
  }

  /** DetectorTurnedPoint for every v at once. */
  lemma DetectorTurnedPoints(a: ObbGeom, b: ObbGeom)
    requires AlignedAxes(a) && TurnedAxes(b) && a.center == b.center
    ensures forall v {:trigger MulVec(DetectorFrame(a, b), v)} ::
              Add(OffsetInA(a, b), MulVec(DetectorFrame(a, b), v)) == Vec3(v.y, v.z, v.x)
  {
    forall v {:trigger MulVec(DetectorFrame(a, b), v)}
      ensures Add(OffsetInA(a, b), MulVec(DetectorFrame(a, b), v)) == Vec3(v.y, v.z, v.x)
    {
      DetectorTurnedPoint(a, b, v);
    }
  }

  /** With a common center, the test as written sees the point v of a turned box b at (v.y, v.z, v.x) in the aligned box a. */
  lemma DetectorTurnedPoint(a: ObbGeom, b: ObbGeom, v: Vec3)
    requires AlignedAxes(a) && TurnedAxes(b) && a.center == b.center
    ensures Add(OffsetInA(a, b), MulVec(DetectorFrame(a, b), v)) == Vec3(v.y, v.z, v.x)
  {
    SameCenterOffset(a, b);
    DetectorTurnedMaps(a, b, v);
  }

  /** v within hb, its components taken in the order (y, z, x), is within ha when hb fits ha in that order. */
  lemma RotatedWithin(v: Vec3, hb: Vec3, ha: Vec3)
    requires WithinExtents(v, hb)
    requires hb.y <= ha.x && hb.z <= ha.y && hb.x <= ha.z
    ensures WithinSlack(Vec3(v.y, v.z, v.x), ha)
  {
  }

  /** Corner 4 (+++) of a turned box b lies h.z along a's x axis: outside a when h.z exceeds a's x extent by more than epsilon. */
  lemma TurnedCornerProtrudes(a: ObbGeom, b: ObbGeom)
    requires AlignedAxes(a) && TurnedAxes(b) && a.center == b.center
    requires b.extents.z > a.extents.x + Epsilon
    ensures !InSlackBox(a, b.Corners()[4])
  {
    var s := CornerSigns()[4];
    assert s == Vec3(1.0, 1.0, 1.0);
    TurnedCorner(b, s);
  }

  /**
   * An aligned box of half extents (2, 3, 1) and a turned box of half
   * extents (1, 2, 3), both at the origin: corner 4 of the turned box is
   * (3, 1, 2), outside the aligned box, yet the test as written reports
   * that the aligned box encloses the turned one; the corrected test
   * does not.
   */
  lemma ObbEnclosingObbAcceptsProtrudingBox(a: ObbGeom, b: ObbGeom)
    requires AlignedAxes(a) && a.center == Zero && a.extents == Vec3(2.0, 3.0, 1.0)
    requires TurnedAxes(b) && b.center == Zero && b.extents == Vec3(1.0, 2.0, 3.0)
    ensures !InSlackBox(a, b.Corners()[4])
    ensures ObbEnclosingObb(a, b) && !ObbEnclosingObbCorrected(a, b)
  {
    DetectorAcceptsTurned(a, b);
    TurnedCornerProtrudes(a, b);
    ObbEnclosingObbCorrectedIff(a, b);
  }
}
