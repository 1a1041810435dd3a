// The containment predicates of the oriented bounding box
// (OrientedBoundingBox::enclosesVolume and isEnclosedByVolume) and the
// box's reply to each query. Each branch maps a list of test points into
// a frame and compares them with half extents, or measures them against
// a sphere or a capsule; the box-box branches fill their frame matrix
// with the other box's axes, which is right only when those axes are the
// coordinate axes, and the lemmas at the end show the enclosure they miss.

module ObbEnclosure {
  import opened Vectors
  import opened GeometryBox
  import opened Volumes
  import opened Frames
  import opened ObbSeparation
  import opened OrientedBoxes

  // ---------------------------------------------------------------------
  // Membership in a box
  // ---------------------------------------------------------------------

  /** R[j][i] = a_i . e_j: the box's axes against the coordinate axes, the matrix of the sphere and capsule branches. */
  function AxisFrame(o: ObbGeom): Mat3 {
    FrameMatrix(o.xAxis, o.yAxis, o.zAxis, UnitX, UnitY, UnitZ)
  }

  /** p's box coordinates are within the half extents. */
  predicate InBox(o: ObbGeom, p: Vec3) {
    WithinExtents(Projections(p, o.center, o.xAxis, o.yAxis, o.zAxis), o.extents)
  }

  /** The axis frame maps an offset from the center to the box coordinates of the point. */
  lemma AxisFrameProjects(o: ObbGeom, p: Vec3)
    ensures MulVec(AxisFrame(o), Sub(p, o.center)) == Projections(p, o.center, o.xAxis, o.yAxis, o.zAxis)
  {
    var d := Sub(p, o.center);
    FrameMatrixOfUnitAxes(o.xAxis, o.yAxis, o.zAxis, d);
    DotSymmetric(o.xAxis, d);
    DotSymmetric(o.yAxis, d);
    DotSymmetric(o.zAxis, d);
  }

  /** Testing points through the axis frame is testing that every one of them is in the box. */
  lemma AxisFrameWithin(o: ObbGeom, pts: seq<Vec3>)
    ensures MappedWithin(AxisFrame(o), o.center, pts, o.extents) <==> forall k :: 0 <= k < |pts| ==> InBox(o, pts[k])
  {
    forall k | 0 <= k < |pts|
      ensures WithinExtents(MulVec(AxisFrame(o), Sub(pts[k], o.center)), o.extents) <==> InBox(o, pts[k])
    {
      AxisFrameProjects(o, pts[k]);
    }
  }

  /**
   * With orthonormal axes InBox is membership in the box as a point set:
   * p is in the box exactly when it is the point of some box coordinates
   * within the half extents.
   */
  lemma InBoxIff(o: ObbGeom, p: Vec3)
    requires AxesOrthonormal(o)
    ensures InBox(o, p) <==> exists u :: WithinExtents(u, o.extents) && PointOf(o, u) == p
  {
    var u := Projections(p, o.center, o.xAxis, o.yAxis, o.zAxis);
    if InBox(o, p) {
      PointOfProjections(o, p);
      assert WithinExtents(u, o.extents) && PointOf(o, u) == p;
    }
    if exists u :: WithinExtents(u, o.extents) && PointOf(o, u) == p {
      var v :| WithinExtents(v, o.extents) && PointOf(o, v) == p;
      BoxPointCoordinates(o.center, o.xAxis, o.yAxis, o.zAxis, v.x, v.y, v.z);
    }
  }

  /** With orthonormal axes a point is rebuilt from its box coordinates. */
  lemma PointOfProjections(o: ObbGeom, p: Vec3)
    requires AxesOrthonormal(o)
    ensures PointOf(o, Projections(p, o.center, o.xAxis, o.yAxis, o.zAxis)) == p
  {
    var w := Sub(p, o.center);
    Completeness(o.xAxis, o.yAxis, o.zAxis, w);
  }

  /** A point halfway between two points of the box is in the box. */
  lemma InBoxMidpoint(o: ObbGeom, m: Vec3, e: Vec3)
    requires InBox(o, Sub(m, e)) && InBox(o, Add(m, e))
    ensures InBox(o, m)
  {
    ProjectionSpread(m, e, o.center, o.xAxis);
    ProjectionSpread(m, e, o.center, o.yAxis);
    ProjectionSpread(m, e, o.center, o.zAxis);
  }

  /** The projections of m - e and m + e lie on either side of m's, at the same distance. */
  lemma ProjectionSpread(m: Vec3, e: Vec3, c: Vec3, axis: Vec3)
    ensures Dot(Sub(Sub(m, e), c), axis) == Dot(Sub(m, c), axis) - Dot(e, axis)
    ensures Dot(Sub(Add(m, e), c), axis) == Dot(Sub(m, c), axis) + Dot(e, axis)
  {
  }

  /** A point halfway between two points within a sphere is within it too. */
  lemma WithinRadiusMidpoint(m: Vec3, e: Vec3, c: Vec3, radius2: real)
    requires Dot(Sub(Sub(m, e), c), Sub(Sub(m, e), c)) <= radius2
    requires Dot(Sub(Add(m, e), c), Sub(Add(m, e), c)) <= radius2
    ensures Dot(Sub(m, c), Sub(m, c)) <= radius2
  {
    var d := Sub(m, c);
    Parallelogram(d, e);
    assert Sub(Sub(m, e), c) == Sub(d, e);
    assert Sub(Add(m, e), c) == Add(d, e);
  }

  /** |d - e|^2 + |d + e|^2 = 2 |d|^2 + 2 |e|^2, and |e|^2 >= 0. */
  lemma Parallelogram(d: Vec3, e: Vec3)
    ensures Dot(Sub(d, e), Sub(d, e)) + Dot(Add(d, e), Add(d, e)) == 2.0 * Dot(d, d) + 2.0 * Dot(e, e)
    ensures Dot(e, e) >= 0.0
  {
  }

  /** Corners 0 and 4 of a corner list are center - e and center + e, e the sum of the edge vectors. */
  lemma OppositeCorners(center: Vec3, ex: Vec3, ey: Vec3, ez: Vec3)
    ensures BoxCorners(center, ex, ey, ez)[0] == Sub(center, Add(Add(ex, ey), ez))
    ensures BoxCorners(center, ex, ey, ez)[4] == Add(center, Add(Add(ex, ey), ez))
  {
  }

  /** Corners 0 and 4 of the cube around c are c - (r, r, r) and c + (r, r, r). */
  lemma OppositeCubeCorners(c: Vec3, r: real)
    ensures CubeCorners(c, r)[0] == Sub(c, Splat(r))
    ensures CubeCorners(c, r)[4] == Add(c, Splat(r))
  {
  }

  // ---------------------------------------------------------------------
  // enclosesVolume
  // ---------------------------------------------------------------------

  /** The sphere branch: the cube around the sphere (actual radius) mapped by the axis frame. */
  predicate EnclosesSphere(o: ObbGeom, s: SphereGeom) {
    MappedWithin(AxisFrame(o), o.center, CubeCorners(s.center, s.WorldRadius()), o.extents)
  }

  /** The capsule branch: the cubes around both ends of the actual line, sixteen points. */
  predicate EnclosesCapsule(o: ObbGeom, c: CapsuleGeom) {
    MappedWithin(AxisFrame(o), o.center,
                 CubeCorners(c.actualStart, c.actualRadius) + CubeCorners(c.actualEnd, c.actualRadius), o.extents)
  }

  /** The box branch as written: b's corners mapped by R[j][i] = a_i . b_j rather than by a's axis frame. */
  predicate EnclosesObb(a: ObbGeom, b: ObbGeom) {
    MappedWithin(FrameOf(a, b), a.center, b.Corners(), a.extents)
  }

  /** The box branch with the offsets projected on a's axes, as the sphere branch does. */
  predicate EnclosesObbCorrected(a: ObbGeom, b: ObbGeom) {
    MappedWithin(AxisFrame(a), a.center, b.Corners(), a.extents)
  }

  /** The sphere branch's loops: fill R, build the test points, stop at the first point outside. */
  method EnclosesSphereSteps(o: ObbGeom, s: SphereGeom) returns (b: bool)
    ensures b == EnclosesSphere(o, s)
  {
    var R := FillFrameMatrix([o.xAxis, o.yAxis, o.zAxis], [UnitX, UnitY, UnitZ]);
    var bRadius := s.WorldRadius();
    var testPoints := CubeCorners(s.center, bRadius);
    b := CheckMappedWithin(R, o.center, testPoints, o.extents);
  }

  /** The capsule branch's loops. */
  method EnclosesCapsuleSteps(o: ObbGeom, c: CapsuleGeom) returns (b: bool)
    ensures b == EnclosesCapsule(o, c)
  {
    var R := FillFrameMatrix([o.xAxis, o.yAxis, o.zAxis], [UnitX, UnitY, UnitZ]);
    var testPoints := CubeCorners(c.actualStart, c.actualRadius) + CubeCorners(c.actualEnd, c.actualRadius);
    b := CheckMappedWithin(R, o.center, testPoints, o.extents);
  }

  /** The box branch's loops, as written. */
  method EnclosesObbSteps(a: ObbGeom, bObb: ObbGeom) returns (b: bool)
    ensures b == EnclosesObb(a, bObb)
  {
    var R := FillFrameMatrix([a.xAxis, a.yAxis, a.zAxis], [bObb.xAxis, bObb.yAxis, bObb.zAxis]);
    var testPoints := bObb.Corners();
    b := CheckMappedWithin(R, a.center, testPoints, a.extents);
  }

  /** The box encloses the sphere's test cube exactly when all eight of its corners are in the box. */
  lemma EnclosesSphereIff(o: ObbGeom, s: SphereGeom)
    ensures EnclosesSphere(o, s) <==> forall k :: 0 <= k < 8 ==> InBox(o, CubeCorners(s.center, s.WorldRadius())[k])
  {
    AxisFrameWithin(o, CubeCorners(s.center, s.WorldRadius()));
  }

  /** A box that encloses a sphere holds its center. */
  lemma EnclosesSphereHoldsCenter(o: ObbGeom, s: SphereGeom)
    requires EnclosesSphere(o, s)
    ensures InBox(o, s.center)
  {
    var r := s.WorldRadius();
    EnclosesSphereIff(o, s);
    OppositeCubeCorners(s.center, r);
    InBoxMidpoint(o, s.center, Splat(r));
  }

  /** A box that encloses a capsule holds both ends of its line. */
  lemma EnclosesCapsuleHoldsLine(o: ObbGeom, c: CapsuleGeom)
    requires EnclosesCapsule(o, c)
    ensures InBox(o, c.actualStart) && InBox(o, c.actualEnd)
  {
    var r := c.actualRadius;
    var pts := CubeCorners(c.actualStart, r) + CubeCorners(c.actualEnd, r);
    AxisFrameWithin(o, pts);
    OppositeCubeCorners(c.actualStart, r);
    OppositeCubeCorners(c.actualEnd, r);
    assert InBox(o, pts[0]) && InBox(o, pts[4]) && InBox(o, pts[8]) && InBox(o, pts[12]);
    InBoxMidpoint(o, c.actualStart, Splat(r));
    InBoxMidpoint(o, c.actualEnd, Splat(r));
  }

  /** The corrected box test holds exactly when every corner of b is in a. */
  lemma EnclosesObbCorrectedIff(a: ObbGeom, b: ObbGeom)
    ensures EnclosesObbCorrected(a, b) <==> forall k :: 0 <= k < 8 ==> InBox(a, b.Corners()[k])
  {
    AxisFrameWithin(a, b.Corners());
  }

  /** A box that encloses another (corrected test) holds its center. */
  lemma EnclosesObbHoldsCenter(a: ObbGeom, b: ObbGeom)
    requires EnclosesObbCorrected(a, b)
    ensures InBox(a, b.center)
  {
    EnclosesObbCorrectedIff(a, b);
    var e := Add(Add(b.EdgeX(), b.EdgeY()), b.EdgeZ());
    OppositeCorners(b.center, b.EdgeX(), b.EdgeY(), b.EdgeZ());
    InBoxMidpoint(a, b.center, e);
  }

  /** When b's axes are the coordinate axes, the box branch as written is the corrected test. */
  lemma EnclosesObbAgrees(a: ObbGeom, b: ObbGeom)
    requires b.xAxis == UnitX && b.yAxis == UnitY && b.zAxis == UnitZ
    ensures EnclosesObb(a, b) == EnclosesObbCorrected(a, b)
  {
  }

  // ---------------------------------------------------------------------
  // isEnclosedByVolume
  // ---------------------------------------------------------------------

  /** The sphere branch: every corner of the box within the sphere's actual radius of its center. */
  predicate IsEnclosedBySphere(o: ObbGeom, s: SphereGeom) {
    AllWithinRadius(o.Corners(), s.center, Square(s.WorldRadius()))
  }

  /** The capsule branch: every corner of the box within the actual radius of the actual line. */
  predicate IsEnclosedByCapsule(o: ObbGeom, c: CapsuleGeom) {
    AllNearSegment(o.Corners(), c.actualStart, c.actualEnd, c.actualRadius * c.actualRadius)
  }

  /** The box branch as written: a's corners, relative to b's center, mapped by R[j][i] = b_j . a_i. */
  predicate IsEnclosedByObb(a: ObbGeom, b: ObbGeom) {
    MappedWithin(FrameOf(a, b), b.center, a.Corners(), b.extents)
  }

  /** The box branch with the offsets projected on b's axes. */
  predicate IsEnclosedByObbCorrected(a: ObbGeom, b: ObbGeom) {
    MappedWithin(AxisFrame(b), b.center, a.Corners(), b.extents)
  }

  /** The sphere branch's loop. */
  method IsEnclosedBySphereSteps(o: ObbGeom, s: SphereGeom) returns (b: bool)
    ensures b == IsEnclosedBySphere(o, s)
  {
    var testPoints := o.Corners();
    var bRadius := s.WorldRadius();
    b := CheckWithinRadius(testPoints, s.center, Square(bRadius));
  }

  /** The capsule branch's loop. */
  method IsEnclosedByCapsuleSteps(o: ObbGeom, c: CapsuleGeom) returns (b: bool)
    ensures b == IsEnclosedByCapsule(o, c)
  {
    var testPoints := o.Corners();
    b := CheckNearSegment(testPoints, c.actualStart, c.actualEnd, c.actualRadius * c.actualRadius);
  }

  /** The box branch's loops, as written. */
  method IsEnclosedByObbSteps(a: ObbGeom, bObb: ObbGeom) returns (b: bool)
    ensures b == IsEnclosedByObb(a, bObb)
  {
    var R := FillFrameMatrix([a.xAxis, a.yAxis, a.zAxis], [bObb.xAxis, bObb.yAxis, bObb.zAxis]);
    var testPoints := a.Corners();
    b := CheckMappedWithin(R, bObb.center, testPoints, bObb.extents);
  }

  /** A box enclosed by a sphere has its center within the sphere. */
  lemma IsEnclosedBySphereHoldsCenter(o: ObbGeom, s: SphereGeom)
    requires IsEnclosedBySphere(o, s)
    ensures Dot(Sub(o.center, s.center), Sub(o.center, s.center)) <= Square(s.WorldRadius())
  {
    var pts, r2 := o.Corners(), Square(s.WorldRadius());
    var e := Add(Add(o.EdgeX(), o.EdgeY()), o.EdgeZ());
    OppositeCorners(o.center, o.EdgeX(), o.EdgeY(), o.EdgeZ());
    assert Dot(Sub(pts[0], s.center), Sub(pts[0], s.center)) <= r2;
    assert Dot(Sub(pts[4], s.center), Sub(pts[4], s.center)) <= r2;
    WithinRadiusMidpoint(o.center, e, s.center, r2);
  }

  /**
   * Against a capsule whose line has shrunk to a point, the capsule
   * branch is the sphere test around that point.
   */
  lemma IsEnclosedByPointCapsule(o: ObbGeom, c: CapsuleGeom)
    requires c.actualStart == c.actualEnd
    ensures IsEnclosedByCapsule(o, c) <==> AllWithinRadius(o.Corners(), c.actualStart, c.actualRadius * c.actualRadius)
  {
    forall k | 0 <= k < 8
      ensures SqDistToSegment(o.Corners()[k], c.actualStart, c.actualEnd)
           == Dot(Sub(o.Corners()[k], c.actualStart), Sub(o.Corners()[k], c.actualStart))
    {
      var p := o.Corners()[k];
      assert Sub(c.actualEnd, c.actualStart) == Vec3(0.0, 0.0, 0.0);
    }
  }

  /** The corrected test holds exactly when every corner of a is in b. */
  lemma IsEnclosedByObbCorrectedIff(a: ObbGeom, b: ObbGeom)
    ensures IsEnclosedByObbCorrected(a, b) <==> forall k :: 0 <= k < 8 ==> InBox(b, a.Corners()[k])
  {
    AxisFrameWithin(b, a.Corners());
  }

  /** Corrected, being enclosed by b is b enclosing: the two predicates are one test seen from both sides. */
  lemma IsEnclosedByObbCorrectedDual(a: ObbGeom, b: ObbGeom)
    ensures IsEnclosedByObbCorrected(a, b) == EnclosesObbCorrected(b, a)
  {
  }

  /** When both boxes are axis-aligned, the box branch as written is the corrected test. */
  lemma IsEnclosedByObbAgrees(a: ObbGeom, b: ObbGeom)
    requires a.xAxis == UnitX && a.yAxis == UnitY && a.zAxis == UnitZ
    requires b.xAxis == UnitX && b.yAxis == UnitY && b.zAxis == UnitZ
    ensures IsEnclosedByObb(a, b) == IsEnclosedByObbCorrected(a, b)
  {
  }

  // ---------------------------------------------------------------------
  // The enclosures the box branches miss
  // ---------------------------------------------------------------------

  /** One point mapped outside the extents fails the whole test. */
  lemma PointOutside(R: Mat3, center: Vec3, pts: seq<Vec3>, h: Vec3, k: nat)
    requires k < |pts| && !WithinExtents(MulVec(R, Sub(pts[k], center)), h)
    ensures !MappedWithin(R, center, pts, h)
  {
  }

  /** The coordinate axes. */
  predicate AlignedAxes(o: ObbGeom) {
    o.xAxis == Vec3(1.0, 0.0, 0.0) && o.yAxis == Vec3(0.0, 1.0, 0.0) && o.zAxis == Vec3(0.0, 0.0, 1.0)
  }

  /** The coordinate axes turned a third of the way round the diagonal: (Y, Z, X). */
  predicate TurnedAxes(o: ObbGeom) {
    o.xAxis == Vec3(0.0, 1.0, 0.0) && o.yAxis == Vec3(0.0, 0.0, 1.0) && o.zAxis == Vec3(1.0, 0.0, 0.0)
  }

  /** The frame matrix of aligned axes against turned ones maps v to (v.z, v.x, v.y). */
  lemma TurnedFrameMaps(a: ObbGeom, b: ObbGeom, v: Vec3)
    requires AlignedAxes(a) && TurnedAxes(b)
    ensures MulVec(FrameOf(a, b), v) == Vec3(v.z, v.x, v.y)
  {
  }

  /** The corner of sign s of an aligned box sits at center + (s.x h.x, s.y h.y, s.z h.z). */
  lemma AlignedCorner(o: ObbGeom, s: Vec3)
    requires AlignedAxes(o)
    ensures Vertex(o.center, o.EdgeX(), o.EdgeY(), o.EdgeZ(), s)
         == Add(o.center, Vec3(s.x * o.extents.x, s.y * o.extents.y, s.z * o.extents.z))
  {
  }

  /** The corner of sign s of a turned box sits at center + (s.z h.z, s.x h.x, s.y h.y). */
  lemma TurnedCorner(o: ObbGeom, s: Vec3)
    requires TurnedAxes(o)
    ensures Vertex(o.center, o.EdgeX(), o.EdgeY(), o.EdgeZ(), s)
         == Add(o.center, Vec3(s.z * o.extents.z, s.x * o.extents.x, s.y * o.extents.y))
  {
  }

  /** |s.c h| <= h for a sign s.c and h >= 0. */
  lemma SignedWithin(sc: real, h: real)
    requires sc == 1.0 || sc == -1.0
    requires h >= 0.0
    ensures -h <= sc * h <= h
  {
  }

  /**
   * An aligned box of half extents (0.5, 2, 0.5) at the origin holds the
   * turned box of half extents (1.5, 0.25, 0.25) at the origin, whose
   * corners are (+/-0.25, +/-1.5, +/-0.25); the box branch as written
   * maps corner 0 to z = -1.5 and reports that it does not.
   */
  lemma EnclosesObbMissesEnclosure(a: ObbGeom, b: ObbGeom)
    requires AlignedAxes(a) && a.center == Vec3(0.0, 0.0, 0.0) && a.extents == Vec3(0.5, 2.0, 0.5)
    requires TurnedAxes(b) && b.center == Vec3(0.0, 0.0, 0.0) && b.extents == Vec3(1.5, 0.25, 0.25)
    ensures forall k :: 0 <= k < 8 ==> InBox(a, b.Corners()[k])
    ensures !EnclosesObb(a, b) && EnclosesObbCorrected(a, b)
  {
    TurnedBoxEnclosed(a, b);
    TurnedBoxMissed(a, b);
  }

  /** An aligned box at least as wide as a turned one at the same center encloses it. */
  lemma TurnedBoxEnclosed(a: ObbGeom, b: ObbGeom)
    requires AlignedAxes(a) && TurnedAxes(b) && a.center == b.center
    requires b.extents.z <= a.extents.x && b.extents.x <= a.extents.y && b.extents.y <= a.extents.z
    requires b.extents.x >= 0.0 && b.extents.y >= 0.0 && b.extents.z >= 0.0
    ensures forall k :: 0 <= k < 8 ==> InBox(a, b.Corners()[k])
    ensures EnclosesObbCorrected(a, b)
  {
    TurnedCornersInAligned(a, b);
    EnclosesObbCorrectedIff(a, b);
  }

  /** The box branch as written rejects a turned box longer than the aligned one is thick along z. */
  lemma TurnedBoxMissed(a: ObbGeom, b: ObbGeom)
    requires AlignedAxes(a) && TurnedAxes(b) && a.center == b.center
    requires b.extents.x > a.extents.z
    ensures !EnclosesObb(a, b)
  {
    TurnedCornerOutside(a, b);
    PointOutside(FrameOf(a, b), a.center, b.Corners(), a.extents, 0);
  }

  /** Every corner of the turned box is in the aligned one. */
  lemma TurnedCornersInAligned(a: ObbGeom, b: ObbGeom)
    requires AlignedAxes(a) && TurnedAxes(b) && a.center == b.center
    requires b.extents.z <= a.extents.x && b.extents.x <= a.extents.y && b.extents.y <= a.extents.z
    requires b.extents.x >= 0.0 && b.extents.y >= 0.0 && b.extents.z >= 0.0
    ensures forall k :: 0 <= k < 8 ==> InBox(a, b.Corners()[k])
  {
    forall k | 0 <= k < 8
      ensures InBox(a, b.Corners()[k])
    {
      var s := CornerSigns()[k];
      TurnedCorner(b, s);
      SignedWithin(s.z, b.extents.z);
      SignedWithin(s.x, b.extents.x);
      SignedWithin(s.y, b.extents.y);
    }
  }

  /** As written, corner 0 of the turned box lands at z = -h.x, below an aligned box thinner than that. */
  lemma TurnedCornerOutside(a: ObbGeom, b: ObbGeom)
    requires AlignedAxes(a) && TurnedAxes(b) && a.center == b.center
    requires b.extents.x > a.extents.z
    ensures MulVec(FrameOf(a, b), Sub(b.Corners()[0], a.center)).z < -a.extents.z
  {
    var v := Sub(b.Corners()[0], a.center);
    TurnedCornerZero(b);
    TurnedFrameMaps(a, b, v);
  }

  /** Corner 0 of a turned box is h.x below its center on the y axis. */
  lemma TurnedCornerZero(b: ObbGeom)
    requires TurnedAxes(b)
    ensures b.Corners()[0].y == b.center.y - b.extents.x
  {
    var s := CornerSigns()[0];
    assert s == Vec3(-1.0, -1.0, -1.0);
    TurnedCorner(b, s);
  }

  /**
   * The aligned box of half extents (0.25, 1.5, 0.25) at the origin is
   * enclosed by the turned box of half extents (1.5, 0.5, 0.5) at the
   * origin, and that box encloses it by the box branch of enclosesVolume;
   * the box branch of isEnclosedByVolume as written maps corner 0 to
   * z = -1.5 and reports that it is not.
   */
  lemma IsEnclosedByObbMissesEnclosure(a: ObbGeom, b: ObbGeom)
    requires AlignedAxes(a) && a.center == Vec3(0.0, 0.0, 0.0) && a.extents == Vec3(0.25, 1.5, 0.25)
    requires TurnedAxes(b) && b.center == Vec3(0.0, 0.0, 0.0) && b.extents == Vec3(1.5, 0.5, 0.5)
    ensures forall k :: 0 <= k < 8 ==> InBox(b, a.Corners()[k])
    ensures !IsEnclosedByObb(a, b) && IsEnclosedByObbCorrected(a, b) && EnclosesObb(b, a)
  {
    AlignedBoxEnclosed(a, b);
    AlignedBoxMissed(a, b);
    EnclosesObbAgrees(b, a);
  }

  /** A turned box at least as wide as an aligned one at the same center encloses it. */
  lemma AlignedBoxEnclosed(a: ObbGeom, b: ObbGeom)
    requires AlignedAxes(a) && TurnedAxes(b) && a.center == b.center
    requires a.extents.y <= b.extents.x && a.extents.z <= b.extents.y && a.extents.x <= b.extents.z
    requires a.extents.x >= 0.0 && a.extents.y >= 0.0 && a.extents.z >= 0.0
    ensures forall k :: 0 <= k < 8 ==> InBox(b, a.Corners()[k])
    ensures IsEnclosedByObbCorrected(a, b)
  {
    AlignedCornersInTurned(a, b);
    IsEnclosedByObbCorrectedIff(a, b);
  }

  /** The box branch as written rejects an aligned box longer than the turned one is thick along its z. */
  lemma AlignedBoxMissed(a: ObbGeom, b: ObbGeom)
    requires AlignedAxes(a) && TurnedAxes(b) && a.center == b.center
    requires a.extents.y > b.extents.z
    ensures !IsEnclosedByObb(a, b)
  {
    AlignedCornerOutside(a, b);
    PointOutside(FrameOf(a, b), b.center, a.Corners(), b.extents, 0);
  }

  /** Every corner of the aligned box is in the turned one. */
  lemma AlignedCornersInTurned(a: ObbGeom, b: ObbGeom)
    requires AlignedAxes(a) && TurnedAxes(b) && a.center == b.center
    requires a.extents.y <= b.extents.x && a.extents.z <= b.extents.y && a.extents.x <= b.extents.z
    requires a.extents.x >= 0.0 && a.extents.y >= 0.0 && a.extents.z >= 0.0
    ensures forall k :: 0 <= k < 8 ==> InBox(b, a.Corners()[k])
  {
    forall k | 0 <= k < 8
      ensures InBox(b, a.Corners()[k])
    {
      var s := CornerSigns()[k];
      AlignedCorner(a, s);
      SignedWithin(s.x, a.extents.x);
      SignedWithin(s.y, a.extents.y);
      SignedWithin(s.z, a.extents.z);
    }
  }

  /** As written, corner 0 of the aligned box lands at z = -h.y, below a turned box thinner than that. */
  lemma AlignedCornerOutside(a: ObbGeom, b: ObbGeom)
    requires AlignedAxes(a) && TurnedAxes(b) && a.center == b.center
    requires a.extents.y > b.extents.z
    ensures MulVec(FrameOf(a, b), Sub(a.Corners()[0], b.center)).z < -b.extents.z
  {
    var v := Sub(a.Corners()[0], b.center);
    AlignedCornerZero(a);
    TurnedFrameMaps(a, b, v);
  }

  /** Corner 0 of an aligned box is h.y below its center on the y axis. */
  lemma AlignedCornerZero(a: ObbGeom)
    requires AlignedAxes(a)
    ensures a.Corners()[0].y == a.center.y - a.extents.y
  {
    var s := CornerSigns()[0];
    assert s == Vec3(-1.0, -1.0, -1.0);
    AlignedCorner(a, s);
  }

  // ---------------------------------------------------------------------
  // The box's reply
  // ---------------------------------------------------------------------

  /**
   * The box answers for spheres, capsules and boxes, and hands every
   * other kind over to the other operand.
   */
  function ObbReply(q: Query, o: ObbGeom, other: Volume): (r: Reply)
    ensures r == Delegate <==> other.AabbVolume?
  {
    match other
    case SphereVolume(s) =>
      Answer(match q
             case Intersects => IntersectsSphere(o, s)
             case Encloses => EnclosesSphere(o, s)
             case IsEnclosedBy => IsEnclosedBySphere(o, s))
    case CapsuleVolume(c) =>
      Answer(match q
             case Intersects => IntersectsCapsule(o, c)
             case Encloses => EnclosesCapsule(o, c)
             case IsEnclosedBy => IsEnclosedByCapsule(o, c))
    case ObbVolume(b) =>
      Answer(match q
             case Intersects => IntersectsObb(o, b)
             case Encloses => EnclosesObb(o, b)
             case IsEnclosedBy => IsEnclosedByObb(o, b))
    case AabbVolume(_) => Delegate
  }
}
