// isOBBIntersectingOBB: the contact between two oriented boxes a and b.
// The routine first runs the fifteen separating-axis tests with the same
// text as the box's own test, but fills R with `R[i][j] = dot(axis[i],
// bAxis[j])` where the box's own test writes `R[j][i]`, so that R is the
// transpose of the frame matrix the tests are written for. When no axis
// separates the boxes it looks for a contact twice: each corner of b
// against its closest point of a, and each edge of a against the first
// edge of b, both scans keeping the candidate whose point on b (for the
// edges) or on a (for the corners) lies nearest to a's center. The
// nearer of the two winners gives the contact.
module BoxContacts {
  import opened Vectors
  import opened GeometryUtils
  import opened GeometryBox
  import opened Volumes
  import opened Contacts
  import opened ObbSeparation
  import Collisions

  // ---------------------------------------------------------------------
  // The separating-axis tests
  // ---------------------------------------------------------------------

  /**
   * The matrix the routine fills: column i holds a_i against b's axes.
   * It is the frame matrix with the two boxes' roles exchanged.
   */
  function DetectorFrame(a: ObbGeom, b: ObbGeom): Mat3 {
    FrameOf(b, a)
  }

  /** The routine's tests: the box's own hand-written ones over the transposed matrix, absR = |R| + 1e-5. */
  predicate SatPasses(a: ObbGeom, b: ObbGeom) {
    var R := DetectorFrame(a, b);
    NoneSeparates(SatTestsAsWritten(R, AbsMatrix(R, Epsilon), a.extents, b.extents, OffsetInA(a, b)))
  }

  /** The derived tests over the frame matrix itself, with the same epsilon. */
  predicate SatPassesCorrected(a: ObbGeom, b: ObbGeom) {
    NoSeparatingAxis(a, b, Epsilon)
  }

  /** The routine's matrix is the transpose of the frame matrix: entry [i][j] is entry [j][i] of FrameOf(a, b). */
  lemma DetectorFrameTransposed(a: ObbGeom, b: ObbGeom)
    ensures forall i, j :: 0 <= i < 3 && 0 <= j < 3 ==> DetectorFrame(a, b)[i][j] == FrameOf(a, b)[j][i]
  {
    forall i, j | 0 <= i < 3 && 0 <= j < 3
      ensures DetectorFrame(a, b)[i][j] == FrameOf(a, b)[j][i]
    {
      Frames.FrameMatrixAt(b.xAxis, b.yAxis, b.zAxis, a.xAxis, a.yAxis, a.zAxis, i, j);
      Frames.FrameMatrixAt(a.xAxis, a.yAxis, a.zAxis, b.xAxis, b.yAxis, b.zAxis, j, i);
      DotSymmetric(AxisAt(a.xAxis, a.yAxis, a.zAxis, i), AxisAt(b.xAxis, b.yAxis, b.zAxis, j));
    }
  }

  /**
   * The transposition and the A0 x B1 radius are the only differences:
   * when the frame matrix is symmetric and b's x and y half extents agree,
   * the routine's tests decide as the derived ones.
   */
  lemma SatPassesAgrees(a: ObbGeom, b: ObbGeom)
    requires forall i, j :: 0 <= i < 3 && 0 <= j < 3 ==> FrameOf(a, b)[i][j] == FrameOf(a, b)[j][i]
    requires b.extents.x == b.extents.y
    ensures SatPasses(a, b) == SatPassesCorrected(a, b)
  {
    DetectorFrameTransposed(a, b);
    MatricesEqual(DetectorFrame(a, b), FrameOf(a, b));
    var R := FrameOf(a, b);
    SatTestsAsWrittenAgree(R, AbsMatrix(R, Epsilon), a.extents, b.extents, OffsetInA(a, b));
  }

  /** The corrected tests never reject two boxes with orthonormal axes that share a point. */
  lemma SatPassesCorrectedSound(a: ObbGeom, b: ObbGeom, u: Vec3, v: Vec3)
    requires AxesOrthonormal(a) && AxesOrthonormal(b)
    requires WithinExtents(u, a.extents) && WithinExtents(v, b.extents)
    requires PointOf(a, u) == PointOf(b, v)
    ensures SatPassesCorrected(a, b)
  {
    NoSeparatingAxisSound(a, b, u, v, Epsilon);
  }

  // ---------------------------------------------------------------------
  // Corners and edges
  // ---------------------------------------------------------------------

  /**
   * The signs of this routine's corner order: x, y and z read as the bits
   * 4, 2 and 1 of the index, minus for a clear bit.
   */
  function BinarySigns(): (s: seq<Vec3>)
    ensures |s| == 8
  {
    [Vec3(-1.0, -1.0, -1.0), Vec3(-1.0, -1.0, 1.0), Vec3(-1.0, 1.0, -1.0), Vec3(-1.0, 1.0, 1.0),
     Vec3(1.0, -1.0, -1.0), Vec3(1.0, -1.0, 1.0), Vec3(1.0, 1.0, -1.0), Vec3(1.0, 1.0, 1.0)]
  }

  /** The eight corners center +/- xVector +/- yVector +/- zVector in this routine's order. */
  function BinaryCorners(o: ObbGeom): (cs: seq<Vec3>)
    ensures |cs| == 8
  {
    var s := BinarySigns();
    seq(8, k requires 0 <= k < 8 => Vertex(o.center, o.EdgeX(), o.EdgeY(), o.EdgeZ(), s[k]))
  }

  /** They are the box's corners in another order: each list holds every corner of the other. */
  lemma BinaryCornersAreCorners(o: ObbGeom)
    ensures var cs := o.Corners();
            BinaryCorners(o) == [cs[0], cs[1], cs[7], cs[6], cs[2], cs[3], cs[5], cs[4]]
    ensures forall k :: 0 <= k < 8 ==> BinaryCorners(o)[k] in o.Corners() && o.Corners()[k] in BinaryCorners(o)
  {
    var cs := o.Corners();
    var s, b := CornerSigns(), BinarySigns();
    assert b == [s[0], s[1], s[7], s[6], s[2], s[3], s[5], s[4]];
    var bs := BinaryCorners(o);
    assert bs == [cs[0], cs[1], cs[7], cs[6], cs[2], cs[3], cs[5], cs[4]];
  }

  /** A segment of the box outline, as the routine's Line copies hold it. */
  datatype Edge = Edge(start: Vec3, end: Vec3)

  /** The twelve edges as pairs of corner indices, in the routine's order. */
  function EdgePairs(): (ps: seq<(nat, nat)>)
    ensures |ps| == 12
    ensures forall k :: 0 <= k < 12 ==> ps[k].0 < 8 && ps[k].1 < 8
  {
    [(0, 1), (0, 2), (0, 4), (3, 1), (3, 2), (3, 7), (5, 7), (5, 4), (5, 1), (6, 7), (6, 4), (6, 2)]
  }

  /** The corner indices i and j of this order differ in exactly one bit: their corners share an edge of the box. */
  predicate Adjacent(i: nat, j: nat) {
    var d := if i < j then j - i else i - j;
    (d == 1 || d == 2 || d == 4) && (i / d) % 2 != (j / d) % 2
  }

  /**
   * The twelve pairs are twelve different edges of the box, so all of
   * them: a cube has twelve edges.
   */
  lemma EdgePairsAreBoxEdges()
    ensures forall k :: 0 <= k < 12 ==> Adjacent(EdgePairs()[k].0, EdgePairs()[k].1)
    ensures forall j, k :: 0 <= j < k < 12 ==>
              EdgePairs()[j] != EdgePairs()[k] && EdgePairs()[j] != (EdgePairs()[k].1, EdgePairs()[k].0)
  {
    var ps := EdgePairs();
    assert ps == [(0, 1), (0, 2), (0, 4), (3, 1), (3, 2), (3, 7), (5, 7), (5, 4), (5, 1), (6, 7), (6, 4), (6, 2)];
  }

  /** The edges between the corners the pairs name. */
  function Edges(cs: seq<Vec3>): (es: seq<Edge>)
    requires |cs| == 8
    ensures |es| == 12
  {
    var ps := EdgePairs();
    seq(12, k requires 0 <= k < 12 => Edge(cs[ps[k].0], cs[ps[k].1]))
  }

  // ---------------------------------------------------------------------
  // The two scans
  // ---------------------------------------------------------------------

  /** getClosestPointBetweenPointAndOBB of p against box a, with the face normal. */
  function ClosestOnBox(a: ObbGeom, p: Vec3): PointAndNormal {
    ClosestPtPointOBB(p, a.center, a.xAxis, a.yAxis, a.zAxis, a.extents)
  }

  /** For each corner, the squared distance from a's center to the corner's closest point of a. */
  function CornerDists(a: ObbGeom, cs: seq<Vec3>): (ds: seq<real>)
    ensures |ds| == |cs|
  {
    seq(|cs|, k requires 0 <= k < |cs| => LengthSq(Sub(ClosestOnBox(a, cs[k]).point, a.center)))
  }

  /** getClosestPtSegmentSegment of an edge of a (first) and an edge of b. */
  function EdgeClosest(e: Edge, bEdge: Edge): ClosestPair {
    SegmentsClosest(e.start, e.end, bEdge.start, bEdge.end)
  }

  /** For each edge, the squared distance from a's center to its closest point on bEdge. */
  function EdgeDists(a: ObbGeom, es: seq<Edge>, bEdge: Edge): (ds: seq<real>)
    ensures |ds| == |es|
  {
    seq(|es|, k requires 0 <= k < |es| => LengthSq(Sub(EdgeClosest(es[k], bEdge).c2, a.center)))
  }

  /** The corner of b the first scan settles on: the first whose closest point of a is nearest a's center. */
  function NearestCorner(a: ObbGeom, b: ObbGeom): Vec3 {
    var cs := BinaryCorners(b);
    cs[Collisions.FirstMinIndex(CornerDists(a, cs))]
  }

  /** The edge of a the second scan settles on, measured against b's first edge. */
  function NearestEdge(a: ObbGeom, b: ObbGeom): Edge {
    var es := Edges(BinaryCorners(a));
    es[Collisions.FirstMinIndex(EdgeDists(a, es, Edges(BinaryCorners(b))[0]))]
  }

  /** The closest points of the nearest edge of a and b's first edge. */
  function NearestEdgePair(a: ObbGeom, b: ObbGeom): ClosestPair {
    EdgeClosest(NearestEdge(a, b), Edges(BinaryCorners(b))[0])
  }

  /** The edge pair wins when its point on b is strictly nearer a's center than the corner's point on a. */
  predicate EdgeWins(a: ObbGeom, b: ObbGeom) {
    LengthSq(Sub(NearestEdgePair(a, b).c2, a.center)) < LengthSq(Sub(ClosestOnBox(a, NearestCorner(a, b)).point, a.center))
  }

  /** The edge contact: at the point on a's edge, normal and depth from the offset to b's edge. */
  function EdgeContact(p: ClosestPair, sqrt: real -> real): ContactInfo {
    var offset := Sub(p.c1, p.c2);
    var dist := sqrt(LengthSq(offset));
    ContactInfo(p.c1, Collisions.Direction(offset, dist), dist, Valid)
  }

  /** The corner contact: at the corner's closest point of a, with a's face normal, depth the corner's distance. */
  function CornerContact(pn: PointAndNormal, corner: Vec3, sqrt: real -> real): ContactInfo {
    ContactInfo(pn.point, pn.normal, sqrt(LengthSq(Sub(pn.point, corner))), Valid)
  }

  /** The contact once no axis separates the boxes: the nearer of the two scans' winners. */
  function BoxesContact(a: ObbGeom, b: ObbGeom, sqrt: real -> real): ContactInfo {
    if EdgeWins(a, b) then EdgeContact(NearestEdgePair(a, b), sqrt)
    else CornerContact(ClosestOnBox(a, NearestCorner(a, b)), NearestCorner(a, b), sqrt)
  }

  /** isOBBIntersectingOBB as written. */
  function ObbObb(a: ObbGeom, b: ObbGeom, sqrt: real -> real): ContactInfo {
    if SatPasses(a, b) then BoxesContact(a, b, sqrt) else Collisions.NoContact
  }

  /** isOBBIntersectingOBB with the frame matrix the tests are written for and the derived A0 x B1 radius. */
  function ObbObbCorrected(a: ObbGeom, b: ObbGeom, sqrt: real -> real): ContactInfo {
    if SatPassesCorrected(a, b) then BoxesContact(a, b, sqrt) else Collisions.NoContact
  }

  // ---------------------------------------------------------------------
  // What the contact states
  // ---------------------------------------------------------------------

  /** The contact is valid exactly when no axis separates the boxes; otherwise it is all zero. */
  lemma ObbObbValidIff(a: ObbGeom, b: ObbGeom, sqrt: real -> real)
    ensures ObbObb(a, b, sqrt).validity == Valid <==> SatPasses(a, b)
    ensures !SatPasses(a, b) ==> ObbObb(a, b, sqrt) == Collisions.NoContact
    ensures ObbObbCorrected(a, b, sqrt).validity == Valid <==> SatPassesCorrected(a, b)
  {
  }

  /**
   * Two boxes with orthonormal axes that share a point always get a valid
   * contact from the corrected routine.
   */
  lemma ObbObbCorrectedTouching(a: ObbGeom, b: ObbGeom, u: Vec3, v: Vec3, sqrt: real -> real)
    requires AxesOrthonormal(a) && AxesOrthonormal(b)
    requires WithinExtents(u, a.extents) && WithinExtents(v, b.extents)
    requires PointOf(a, u) == PointOf(b, v)
    ensures ObbObbCorrected(a, b, sqrt).validity == Valid
  {
    SatPassesCorrectedSound(a, b, u, v);
  }

  /**
   * The corner scan's winner is one of b's corners, and its closest point
   * of a is at least as near a's center as any other corner's, strictly
   * nearer than those before it in the routine's order.
   */
  lemma NearestCornerIsNearest(a: ObbGeom, b: ObbGeom)
    ensures NearestCorner(a, b) in BinaryCorners(b)
    ensures forall k :: 0 <= k < 8 ==>
              LengthSq(Sub(ClosestOnBox(a, NearestCorner(a, b)).point, a.center)) <=
              LengthSq(Sub(ClosestOnBox(a, BinaryCorners(b)[k]).point, a.center))
  {
    var cs := BinaryCorners(b);
    var ds := CornerDists(a, cs);
    var v := Collisions.FirstMinIndex(ds);
    forall k | 0 <= k < 8
      ensures LengthSq(Sub(ClosestOnBox(a, cs[v]).point, a.center)) <= LengthSq(Sub(ClosestOnBox(a, cs[k]).point, a.center))
    {
      assert ds[v] <= ds[k];
    }
  }

  /**
   * The edge pair joins a point of one of a's edges to a point of b's first
   * edge, and that point of b is at least as near a's center as the one any
   * other edge of a gives.
   */
  lemma NearestEdgePairOnEdges(a: ObbGeom, b: ObbGeom)
    ensures NearestEdge(a, b) in Edges(BinaryCorners(a))
    ensures var p, e, f := NearestEdgePair(a, b), NearestEdge(a, b), Edges(BinaryCorners(b))[0];
            (exists s :: 0.0 <= s <= 1.0 && p.c1 == PointAt(e.start, e.end, s)) &&
            (exists t :: 0.0 <= t <= 1.0 && p.c2 == PointAt(f.start, f.end, t))
    ensures var es, f := Edges(BinaryCorners(a)), Edges(BinaryCorners(b))[0];
            forall k :: 0 <= k < 12 ==>
              LengthSq(Sub(NearestEdgePair(a, b).c2, a.center)) <= LengthSq(Sub(EdgeClosest(es[k], f).c2, a.center))
  {
    var es, f := Edges(BinaryCorners(a)), Edges(BinaryCorners(b))[0];
    var ds := EdgeDists(a, es, f);
    var k0 := Collisions.FirstMinIndex(ds);
    var e := es[k0];
    var q := SegmentsParams(e.start, e.end, f.start, f.end);
    assert NearestEdgePair(a, b).c1 == PointAt(e.start, e.end, q.s);
    assert NearestEdgePair(a, b).c2 == PointAt(f.start, f.end, q.t);
    forall k | 0 <= k < 12
      ensures LengthSq(Sub(NearestEdgePair(a, b).c2, a.center)) <= LengthSq(Sub(EdgeClosest(es[k], f).c2, a.center))
    {
      assert ds[k0] <= ds[k];
    }
  }

  /**
   * The edge contact lies on a's edge; its depth is the distance between
   * the two closest points, and its normal, when they differ, is the unit
   * vector from b's point to a's; when they coincide both are zero.
   */
  lemma EdgeContactMeasures(p: ClosestPair, sqrt: real -> real)
    requires IsSqrt(sqrt)
    ensures var c := EdgeContact(p, sqrt);
            c.validity == Valid && c.point == p.c1 &&
            c.penetration >= 0.0 && c.penetration * c.penetration == DistSq(p.c2, p.c1)
    ensures var c := EdgeContact(p, sqrt);
            p.c1 != p.c2 ==> LengthSq(c.normal) == 1.0 && Scale(c.penetration, c.normal) == Sub(p.c1, p.c2)
    ensures var c := EdgeContact(p, sqrt);
            p.c1 == p.c2 ==> c.normal == Zero && c.penetration == 0.0
  {
    var offset := Sub(p.c1, p.c2);
    var l := Dot(offset, offset);
    LengthSqNonNegative(offset);
    assert sqrt(l) >= 0.0 && sqrt(l) * sqrt(l) == l;
    Collisions.OffsetZeroIff(p.c1, p.c2);
    if p.c1 != p.c2 {
      Collisions.DirectionIsUnit(offset, sqrt);
      Collisions.SqrtOfPositive(sqrt, offset);
      Collisions.DirectionScales(offset, sqrt(l));
    } else {
      assert l == 0.0;
      Collisions.SqrtOfZero(sqrt);
    }
  }

  /**
   * The corner contact's depth is the distance from the corner to its
   * closest point of a, zero exactly when the corner is that point.
   */
  lemma CornerContactMeasures(pn: PointAndNormal, corner: Vec3, sqrt: real -> real)
    requires IsSqrt(sqrt)
    ensures var c := CornerContact(pn, corner, sqrt);
            c.validity == Valid && c.point == pn.point && c.normal == pn.normal &&
            c.penetration >= 0.0 && c.penetration * c.penetration == DistSq(corner, pn.point)
    ensures CornerContact(pn, corner, sqrt).penetration == 0.0 <==> pn.point == corner
  {
    var offset := Sub(pn.point, corner);
    var l := Dot(offset, offset);
    LengthSqNonNegative(offset);
    assert sqrt(l) >= 0.0 && sqrt(l) * sqrt(l) == l;
    Collisions.OffsetZeroIff(pn.point, corner);
    if pn.point != corner {
      Collisions.SqrtOfPositive(sqrt, offset);
    } else {
      assert l == 0.0;
      Collisions.SqrtOfZero(sqrt);
    }
  }

  /**
   * The corner contact's point lies in a: its box coordinates are within
   * a's half extents.
   */
  lemma CornerContactInBox(a: ObbGeom, corner: Vec3)
    requires AxesOrthonormal(a)
    requires a.extents.x >= 0.0 && a.extents.y >= 0.0 && a.extents.z >= 0.0
    ensures WithinExtents(Projections(ClosestOnBox(a, corner).point, a.center, a.xAxis, a.yAxis, a.zAxis), a.extents)
  {
    ClosestPtPointOBBInBox(corner, a.center, a.xAxis, a.yAxis, a.zAxis, a.extents);
  }

  /**
   * A corner of b inside a is its own closest point, so when the corner
   * contact wins with such a corner its depth is zero, however deep the
   * corner lies.
   */
  lemma InsideCornerHasNoDepth(a: ObbGeom, b: ObbGeom, sqrt: real -> real)
    requires IsSqrt(sqrt) && AxesOrthonormal(a)
    requires WithinExtents(Projections(NearestCorner(a, b), a.center, a.xAxis, a.yAxis, a.zAxis), a.extents)
    requires SatPasses(a, b) && !EdgeWins(a, b)
    ensures ObbObb(a, b, sqrt).validity == Valid && ObbObb(a, b, sqrt).penetration == 0.0
  {
    var corner := NearestCorner(a, b);
    Collisions.InsidePointIsClosest(corner, a.center, a.xAxis, a.yAxis, a.zAxis, a.extents);
    CornerContactMeasures(ClosestOnBox(a, corner), corner, sqrt);
  }

  // ---------------------------------------------------------------------
  // The routine step by step
  // ---------------------------------------------------------------------

  /** The nested loop `R[i][j] = dot(axis[i], bAxis[j])`. */
  method FillDetectorFrame(axis: seq<Vec3>, bAxis: seq<Vec3>) returns (R: Mat3)
    requires |axis| == 3 && |bAxis| == 3
    ensures R == FrameMatrix(bAxis[0], bAxis[1], bAxis[2], axis[0], axis[1], axis[2])
  {
    R := [[0.0, 0.0, 0.0], [0.0, 0.0, 0.0], [0.0, 0.0, 0.0]];
    for i := 0 to 3
      invariant forall k, j :: 0 <= k < i && 0 <= j < 3 ==> R[k][j] == Dot(axis[k], bAxis[j])
    {
      for j := 0 to 3
        invariant forall k, jj :: 0 <= k < i && 0 <= jj < 3 ==> R[k][jj] == Dot(axis[k], bAxis[jj])
        invariant forall jj :: 0 <= jj < j ==> R[i][jj] == Dot(axis[i], bAxis[jj])
      {
        R := R[i := R[i][j := Dot(axis[i], bAxis[j])]];
      }
    }
    var F := FrameMatrix(bAxis[0], bAxis[1], bAxis[2], axis[0], axis[1], axis[2]);
    forall i, j | 0 <= i < 3 && 0 <= j < 3
      ensures R[i][j] == F[i][j]
    {
      Frames.FrameMatrixAt(bAxis[0], bAxis[1], bAxis[2], axis[0], axis[1], axis[2], i, j);
      assert bAxis[j] == AxisAt(bAxis[0], bAxis[1], bAxis[2], j);
      assert axis[i] == AxisAt(axis[0], axis[1], axis[2], i);
      DotSymmetric(axis[i], bAxis[j]);
    }
    MatricesEqual(R, F);
  }

  /**
   * isOBBIntersectingOBB: the matrix, the offset and absR, the fifteen
   * tests, then the corner scan, the edge scan, the engine's second edge
   * pass and the choice between the two winners.
   */
  method ObbObbSteps(a: ObbGeom, b: ObbGeom, sqrt: real -> real) returns (contact: ContactInfo)
    ensures contact == ObbObb(a, b, sqrt)
  {
    var bAxis := [b.xAxis, b.yAxis, b.zAxis];
    var axis := [a.xAxis, a.yAxis, a.zAxis];
    var R := FillDetectorFrame(axis, bAxis);
    var d := Sub(b.center, a.center);
    var t := Vec3(Dot(d, axis[0]), Dot(d, axis[1]), Dot(d, axis[2]));
    var absR := FillAbsMatrix(R, Epsilon);
    assert R == DetectorFrame(a, b) && t == OffsetInA(a, b);
    var passes := SatSteps(R, absR, a.extents, b.extents, t);
    if !passes {
      return Collisions.NoContact;
    }
    contact := BoxesContactSteps(a, b, sqrt);
  }

  /** The part of isOBBIntersectingOBB after the tests: the two scans and the choice. */
  method BoxesContactSteps(a: ObbGeom, b: ObbGeom, sqrt: real -> real) returns (contact: ContactInfo)
    ensures contact == BoxesContact(a, b, sqrt)
  {
    var bCorners := BinaryCorners(b);
    var closestPointToCorner, closestPointNormal, pointDist2, closestCorner := CornerScan(a, bCorners);
    var edges := Edges(BinaryCorners(a));
    var bEdges := Edges(bCorners);
    var bEdge := bEdges[0];
    var closestPointEdge, bClosestPointEdge, segDist2 := EdgeScan(a, edges, bEdge);
    bEdge, closestPointEdge, bClosestPointEdge, segDist2 :=
      SecondEdgePass(a, edges, bEdges, closestPointEdge, bClosestPointEdge, segDist2);
    if segDist2 < pointDist2 {
      var offset := Sub(closestPointEdge, bClosestPointEdge);
      var dist := sqrt(Dot(offset, offset));
      contact := ContactInfo(closestPointEdge, Collisions.Direction(offset, dist), dist, Valid);
    } else {
      var gap := Sub(closestPointToCorner, closestCorner);
      contact := ContactInfo(closestPointToCorner, closestPointNormal, sqrt(Dot(gap, gap)), Valid);
    }
  }

  /**
   * The corner scan: the closest point of a to each corner in turn, the
   * winner replaced only by a strictly smaller squared distance from a's
   * center.
   */
  method CornerScan(a: ObbGeom, cs: seq<Vec3>) returns (point: Vec3, normal: Vec3, dist2: real, corner: Vec3)
    requires |cs| > 0
    ensures var ds := CornerDists(a, cs);
            var k := Collisions.FirstMinIndex(ds);
            corner == cs[k] && dist2 == ds[k] && PointAndNormal(point, normal) == ClosestOnBox(a, corner)
  {
    ghost var ds := CornerDists(a, cs);
    ghost var closest := 0;
    point, normal, dist2 := CornerStep(a, cs, 0);
    corner := cs[0];
    assert ds[..1] == [ds[0]];
    for i := 1 to |cs|
      invariant closest == Collisions.FirstMinIndex(ds[..i]) && closest < |cs|
      invariant corner == cs[closest] && dist2 == ds[closest]
      invariant PointAndNormal(point, normal) == ClosestOnBox(a, corner)
    {
      var closestPoint, pointNormal, d2 := CornerStep(a, cs, i);
      Collisions.FirstMinIndexStep(ds, i);
      if d2 < dist2 {
        normal, point, dist2, corner := pointNormal, closestPoint, d2, cs[i];
        closest := i;
      }
    }
    assert ds[..|cs|] == ds;
  }

  /** The closest point of a to corner i, its face normal and its squared distance from a's center. */
  method CornerStep(a: ObbGeom, cs: seq<Vec3>, i: nat) returns (point: Vec3, normal: Vec3, dist2: real)
    requires i < |cs|
    ensures PointAndNormal(point, normal) == ClosestOnBox(a, cs[i]) && dist2 == CornerDists(a, cs)[i]
  {
    point, normal := ClosestPtPointOBBSteps(cs[i], a.center, a.xAxis, a.yAxis, a.zAxis, a.extents);
    var offset := Sub(point, a.center);
    dist2 := Dot(offset, offset);
  }

  /**
   * The edge scan: each edge of a against bEdge, the winner replaced only
   * by a strictly smaller squared distance from a's center to the point
   * on bEdge.
   */
  method EdgeScan(a: ObbGeom, es: seq<Edge>, bEdge: Edge) returns (c1: Vec3, c2: Vec3, dist2: real)
    requires |es| > 0
    ensures var ds := EdgeDists(a, es, bEdge);
            var k := Collisions.FirstMinIndex(ds);
            dist2 == ds[k] && c1 == EdgeClosest(es[k], bEdge).c1 && c2 == EdgeClosest(es[k], bEdge).c2
  {
    ghost var ds := EdgeDists(a, es, bEdge);
    ghost var closest := 0;
    c1, c2, dist2 := EdgeStep(a, es, bEdge, 0);
    assert ds[..1] == [ds[0]];
    for j := 1 to |es|
      invariant closest == Collisions.FirstMinIndex(ds[..j]) && closest < |es|
      invariant dist2 == ds[closest]
      invariant c1 == EdgeClosest(es[closest], bEdge).c1 && c2 == EdgeClosest(es[closest], bEdge).c2
    {
      var p1, p2, currentDist2 := EdgeStep(a, es, bEdge, j);
      Collisions.FirstMinIndexStep(ds, j);
      if currentDist2 < dist2 {
        c1, c2, dist2 := p1, p2, currentDist2;
        closest := j;
      }
    }
    assert ds[..|es|] == ds;
  }

  /** getClosestPtSegmentSegment of edge j and bEdge, and the squared distance of c2 from a's center. */
  method EdgeStep(a: ObbGeom, es: seq<Edge>, bEdge: Edge, j: nat) returns (c1: Vec3, c2: Vec3, dist2: real)
    requires j < |es|
    ensures c1 == EdgeClosest(es[j], bEdge).c1 && c2 == EdgeClosest(es[j], bEdge).c2
    ensures dist2 == EdgeDists(a, es, bEdge)[j]
  {
    var pairDist2;
    c1, c2, pairDist2 := ClosestPtSegmentSegment(es[j].start, es[j].end, bEdge.start, bEdge.end);
    var offset := Sub(c2, a.center);
    dist2 := Dot(offset, offset);
  }

  /**
   * The engine's second pass over b's edges 1 to 11, carrying the winner
   * of the first scan (b's edge, the two closest points and their
   * squared distance). Its body measures every edge of a against bEdge,
   * which still holds b's first edge, so it meets the distances of the
   * first scan again and never one strictly below their least: the
   * branch that would replace the winner (and move bEdge on) is never
   * taken, and the pass hands the winner back unchanged.
   */
  method SecondEdgePass(a: ObbGeom, es: seq<Edge>, bEdges: seq<Edge>, c1In: Vec3, c2In: Vec3, segDist2: real)
    returns (bEdge: Edge, c1: Vec3, c2: Vec3, dist2: real)
    requires |es| > 0 && |bEdges| > 0
    requires segDist2 == EdgeDists(a, es, bEdges[0])[Collisions.FirstMinIndex(EdgeDists(a, es, bEdges[0]))]
    ensures bEdge == bEdges[0] && c1 == c1In && c2 == c2In && dist2 == segDist2
  {
    bEdge, c1, c2, dist2 := bEdges[0], c1In, c2In, segDist2;
    for i := 1 to |bEdges|
      invariant bEdge == bEdges[0] && c1 == c1In && c2 == c2In && dist2 == segDist2
    {
      for j := 0 to |es|
        invariant bEdge == bEdges[0] && c1 == c1In && c2 == c2In && dist2 == segDist2
      {
        var e1, e2, currentDist2 := EdgeStep(a, es, bEdge, j);
        if currentDist2 < dist2 {
          assert false;
        }
      }
    }
  }

  // ---------------------------------------------------------------------
  // The transposed matrix rejects touching boxes
  // ---------------------------------------------------------------------

  /**
   * A flat box a (half extents 10, 10, 1 on the unit axes at the origin)
   * and a box b reduced to a segment of half length 3 along
   * (2, -1, 2) / 3, centred at (0, 0, 3). Both hold (-2, 1, 1), yet the
   * routine's face test along a's z axis separates them: the transposed
   * matrix weighs b's half length with |a_0 . b_2| = 1/3 where the frame
   * matrix has |a_2 . b_0| = 2/3, so 3 > 1 + 3 (1/3 + 1e-5). The
   * corrected test does not separate them.
   */
  lemma ObbObbMissesTouchingBoxes(a: ObbGeom, b: ObbGeom, u: Vec3, v: Vec3, sqrt: real -> real)
    requires FlatBox(a) && TiltedSegment(b)
    requires u == Vec3(-2.0, 1.0, 1.0) && v == Vec3(-3.0, 0.0, 0.0)
    ensures AxesOrthonormal(a) && AxesOrthonormal(b)
    ensures WithinExtents(u, a.extents) && WithinExtents(v, b.extents)
    ensures PointOf(a, u) == PointOf(b, v) == Vec3(-2.0, 1.0, 1.0)
    ensures ObbObb(a, b, sqrt) == Collisions.NoContact
    ensures ObbObbCorrected(a, b, sqrt).validity == Valid
  {
    TouchingBoxesShareAPoint(a, b, u, v);
    TiltedFrameSeparates(a, b);
    ObbObbCorrectedTouching(a, b, u, v, sqrt);
  }

  /** a: half extents 10, 10, 1 on the unit axes at the origin. */
  predicate FlatBox(a: ObbGeom) {
    && a.center == Vec3(0.0, 0.0, 0.0)
    && a.xAxis == Vec3(1.0, 0.0, 0.0) && a.yAxis == Vec3(0.0, 1.0, 0.0) && a.zAxis == Vec3(0.0, 0.0, 1.0)
    && a.extents == Vec3(10.0, 10.0, 1.0)
  }

  /** b: half extents 3, 0, 0 on the axes (2, -1, 2) / 3, (2, 2, -1) / 3, (-1, 2, 2) / 3 at (0, 0, 3). */
  predicate TiltedSegment(b: ObbGeom) {
    && b.center == Vec3(0.0, 0.0, 3.0)
    && b.xAxis == Vec3(2.0 / 3.0, -1.0 / 3.0, 2.0 / 3.0) && b.yAxis == Vec3(2.0 / 3.0, 2.0 / 3.0, -1.0 / 3.0)
    && b.zAxis == Vec3(-1.0 / 3.0, 2.0 / 3.0, 2.0 / 3.0)
    && b.extents == Vec3(3.0, 0.0, 0.0)
  }

  /** The two example boxes have orthonormal axes and share the point (-2, 1, 1). */
  lemma TouchingBoxesShareAPoint(a: ObbGeom, b: ObbGeom, u: Vec3, v: Vec3)
    requires FlatBox(a) && TiltedSegment(b)
    requires u == Vec3(-2.0, 1.0, 1.0) && v == Vec3(-3.0, 0.0, 0.0)
    ensures AxesOrthonormal(a) && AxesOrthonormal(b)
    ensures WithinExtents(u, a.extents) && WithinExtents(v, b.extents)
    ensures PointOf(a, u) == PointOf(b, v) == Vec3(-2.0, 1.0, 1.0)
  {
    UnitAxesOrthonormal(a.xAxis, a.yAxis, a.zAxis);
    TiltedAxesOrthonormal(b);
    FlatPoint(a, u);
    TiltedPoint(b, v);
  }

  /** On a, the box coordinates (-2, 1, 1) are within the extents and name the point (-2, 1, 1). */
  lemma FlatPoint(a: ObbGeom, u: Vec3)
    requires FlatBox(a) && u == Vec3(-2.0, 1.0, 1.0)
    ensures WithinExtents(u, a.extents) && PointOf(a, u) == u
  {
    UnitBoxPoint(a.center, a.xAxis, a.yAxis, a.zAxis, u);
    var p := Add(a.center, u);
    assert p.x == u.x && p.y == u.y && p.z == u.z;
  }

  /** The axes (2, -1, 2) / 3, (2, 2, -1) / 3 and (-1, 2, 2) / 3 are orthonormal. */
  lemma TiltedAxesOrthonormal(b: ObbGeom)
    requires b.xAxis == Vec3(2.0 / 3.0, -1.0 / 3.0, 2.0 / 3.0) && b.yAxis == Vec3(2.0 / 3.0, 2.0 / 3.0, -1.0 / 3.0)
    requires b.zAxis == Vec3(-1.0 / 3.0, 2.0 / 3.0, 2.0 / 3.0)
    ensures AxesOrthonormal(b)
  {
  }

  /** On the unit axes, the point with box coordinates u is the center moved by u. */
  lemma UnitBoxPoint(c: Vec3, x: Vec3, y: Vec3, z: Vec3, u: Vec3)
    requires x == Vec3(1.0, 0.0, 0.0) && y == Vec3(0.0, 1.0, 0.0) && z == Vec3(0.0, 0.0, 1.0)
    ensures BoxPoint(c, x, y, z, u.x, u.y, u.z) == Add(c, u)
  {
  }

  /** A point on the first axis only: center + dx x. */
  lemma SegmentBoxPoint(c: Vec3, x: Vec3, y: Vec3, z: Vec3, dx: real)
    ensures BoxPoint(c, x, y, z, dx, 0.0, 0.0) == Add(c, Scale(dx, x))
  {
  }

  /** Moving 3 back along (2, -1, 2) / 3 from (0, 0, 3) reaches (-2, 1, 1). */
  lemma TiltedPoint(b: ObbGeom, v: Vec3)
    requires b.center == Vec3(0.0, 0.0, 3.0) && b.xAxis == Vec3(2.0 / 3.0, -1.0 / 3.0, 2.0 / 3.0)
    requires v == Vec3(-3.0, 0.0, 0.0) && b.extents == Vec3(3.0, 0.0, 0.0)
    ensures WithinExtents(v, b.extents) && PointOf(b, v) == Vec3(-2.0, 1.0, 1.0)
  {
    SegmentBoxPoint(b.center, b.xAxis, b.yAxis, b.zAxis, v.x);
    var p := Add(b.center, Scale(v.x, b.xAxis));
    assert p.x == -2.0 && p.y == 1.0 && p.z == 1.0;
  }

  /** The routine's face test along a's z axis separates the two example boxes. */
  lemma TiltedFrameSeparates(a: ObbGeom, b: ObbGeom)
    requires FlatBox(a) && TiltedSegment(b)
    ensures !SatPasses(a, b)
  {
    TiltedFrameEntry(a, b);
    TiltedOffset(a, b);
    FaceZBlocks(a, b);
  }

  /** Any pair of boxes with these frame entry, extents and offset is rejected by the face test along A2. */
  lemma FaceZBlocks(a: ObbGeom, b: ObbGeom)
    requires DetectorFrame(a, b)[0][2] == -1.0 / 3.0 && OffsetInA(a, b).z == 3.0
    requires a.extents.z == 1.0 && b.extents == Vec3(3.0, 0.0, 0.0)
    ensures !SatPasses(a, b)
  {
    var R := DetectorFrame(a, b);
    FaceZSeparates(R, AbsMatrix(R, Epsilon), a.extents, b.extents, OffsetInA(a, b));
  }

  /** The entry of the detector's frame pairing b's z axis with a's x axis. */
  lemma TiltedFrameEntry(a: ObbGeom, b: ObbGeom)
    requires a.xAxis == Vec3(1.0, 0.0, 0.0)
    requires b.zAxis == Vec3(-1.0 / 3.0, 2.0 / 3.0, 2.0 / 3.0)
    ensures DetectorFrame(a, b)[0][2] == -1.0 / 3.0
  {
    Frames.FrameMatrixAt(b.xAxis, b.yAxis, b.zAxis, a.xAxis, a.yAxis, a.zAxis, 0, 2);
  }

  /** The z component of b's center in a's frame. */
  lemma TiltedOffset(a: ObbGeom, b: ObbGeom)
    requires a.center == Vec3(0.0, 0.0, 0.0) && a.zAxis == Vec3(0.0, 0.0, 1.0)
    requires b.center == Vec3(0.0, 0.0, 3.0)
    ensures OffsetInA(a, b).z == 3.0
  {
    assert OffsetInA(a, b).z == Dot(Sub(b.center, a.center), a.zAxis);
  }

  /** With R[0][2] = -1/3, b's half extents (3, 0, 0), a's z half extent 1 and t.z = 3, the face test along A2 separates. */
  lemma FaceZSeparates(R: Mat3, absR: Mat3, h: Vec3, bh: Vec3, t: Vec3)
    requires R[0][2] == -1.0 / 3.0 && absR == AbsMatrix(R, Epsilon)
    requires h.z == 1.0 && bh == Vec3(3.0, 0.0, 0.0) && t.z == 3.0
    ensures !NoneSeparates(SatTestsAsWritten(R, absR, h, bh, t))
  {
    AbsMatrixAt(R, Epsilon, 0, 2);
    assert absR[0][2] == 1.0 / 3.0 + Epsilon;
    var x := FaceATest(absR, h, bh, t, 2);
    assert Separates(x);
    assert SatTestsAsWritten(R, absR, h, bh, t)[2] == x;
  }
}
