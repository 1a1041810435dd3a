// The oriented bounding box: a scene node with half extents along the
// three axes of its rotation. The predicates see a box through ObbGeom
// (world center, unit axes, actual half extents), which the caller
// computes from the transform; the other operand is a SphereGeom, a
// CapsuleGeom or another ObbGeom.
module OrientedBoxes {
  import opened Vectors
  import opened SceneObjects
  import opened GeometryBox
  import opened GeometryUtils
  import opened GeometryTriangle
  import opened Volumes

  // ---------------------------------------------------------------------
  // Half extents
  // ---------------------------------------------------------------------

  /**
   * getActualHalfExtents: each half extent times the magnitude of the
   * scale on its axis, so a mirroring scale changes nothing.
   */
  function ActualHalfExtents(h: Vec3, scale: Vec3): (r: Vec3)
    ensures AbsVec(r) == Mul(AbsVec(h), AbsVec(scale))
    ensures h.x >= 0.0 && h.y >= 0.0 && h.z >= 0.0 ==> r.x >= 0.0 && r.y >= 0.0 && r.z >= 0.0
    ensures AbsVec(scale) == Vec3(1.0, 1.0, 1.0) ==> r == h
  {
    AbsOfScaled(h.x, Abs(scale.x));
    AbsOfScaled(h.y, Abs(scale.y));
    AbsOfScaled(h.z, Abs(scale.z));
    Mul(h, AbsVec(scale))
  }

  lemma AbsOfScaled(a: real, k: real)
    requires k >= 0.0
    ensures Abs(a * k) == Abs(a) * k
    ensures a >= 0.0 ==> a * k >= 0.0
  {
    if a >= 0.0 {
      MulNonNegative(a, k);
    } else {
      MulNonNegative(-a, k);
      assert (-a) * k == -(a * k);
    }
  }

  class OrientedBoundingBox {
    var halfExtents: Vec3
    var name: string
    var transform: Transform
    var children: seq<SceneObject?>

    /** A new box: half extents, name and transform; no children. */
    constructor (halfExtents: Vec3, name: string, transform: Transform)
      ensures this.halfExtents == halfExtents && this.name == name && this.transform == transform
      ensures children == []
    {
      this.halfExtents := halfExtents;
      this.name := name;
      this.transform := transform;
      children := [];
    }

    /** The copy (and move) constructor: half extents, name, transform and children. */
    constructor Copy(obb: OrientedBoundingBox)
      ensures halfExtents == obb.halfExtents && name == obb.name && transform == obb.transform
      ensures children == obb.children
    {
      halfExtents := obb.halfExtents;
      name := obb.name;
      transform := obb.transform;
      children := obb.children;
    }

    /** Copy (and move) assignment: the same four fields. */
    method Assign(obb: OrientedBoundingBox)
      modifies this
      ensures halfExtents == old(obb.halfExtents) && name == old(obb.name) && transform == old(obb.transform)
      ensures children == old(obb.children)
    {
      halfExtents, name, transform, children := obb.halfExtents, obb.name, obb.transform, obb.children;
    }

    /** setHalfExtents: only the half extents change, so getHalfExtents reads the new value back. */
    method SetHalfExtents(h: Vec3)
      modifies this
      ensures halfExtents == h
      ensures name == old(name) && transform == old(transform) && children == old(children)
    {
      halfExtents := h;
    }

    /** getActualHalfExtents of this box. */
    function GetActualHalfExtents(): (r: Vec3)
      reads this
      ensures r == ActualHalfExtents(halfExtents, transform.scale)
    {
      ActualHalfExtents(halfExtents, transform.scale)
    }

    /** The box as the predicates see it, given the world center and axes of its transform. */
    function Geom(center: Vec3, xAxis: Vec3, yAxis: Vec3, zAxis: Vec3): (o: ObbGeom)
      reads this
      ensures o.extents == GetActualHalfExtents() && o.center == center
      ensures o.xAxis == xAxis && o.yAxis == yAxis && o.zAxis == zAxis
    {
      ObbGeom(center, xAxis, yAxis, zAxis, GetActualHalfExtents())
    }
  }

  // ---------------------------------------------------------------------
  // getClosestPtPointOBB
  // ---------------------------------------------------------------------

  /**
   * The engine's clamp of a projection: above h becomes h, and below -h
   * becomes +h as well, the far face rather than the near one. It agrees
   * with the clamp to [-h, h] exactly when the projection is not below
   * -h (or the box is flat on that axis).
   */
  function FlipClamp(dist: real, h: real): (r: real)
    ensures h >= 0.0 ==> -h <= r <= h
    ensures -h <= dist <= h ==> r == dist
    ensures dist < -h ==> r == h
    ensures h >= 0.0 ==> (r == ClampToExtent(dist, h) <==> dist >= -h || h == 0.0)
  {
    if dist > h then h else if dist < -h then h else dist
  }

  /** getClosestPtPointOBB: the center stepped along each axis by the engine's clamped projection. */
  function ClosestPtAsWritten(p: Vec3, o: ObbGeom): Vec3 {
    var dist := Projections(p, o.center, o.xAxis, o.yAxis, o.zAxis);
    BoxPoint(o.center, o.xAxis, o.yAxis, o.zAxis,
             FlipClamp(dist.x, o.extents.x), FlipClamp(dist.y, o.extents.y), FlipClamp(dist.z, o.extents.z))
  }

  /** The closest point with the clamp to [-h, h] on every axis. */
  function ClosestPtCorrected(p: Vec3, o: ObbGeom): Vec3 {
    ClosestPtPointOBB(p, o.center, o.xAxis, o.yAxis, o.zAxis, o.extents).point
  }

  predicate NonNegative(h: Vec3) {
    h.x >= 0.0 && h.y >= 0.0 && h.z >= 0.0
  }

  /** The step-by-step computation: result starts at the center and moves along each axis. */
  method ClosestPtAsWrittenSteps(pt: Vec3, o: ObbGeom) returns (result: Vec3)
    ensures result == ClosestPtAsWritten(pt, o)
  {
    var d := Sub(pt, o.center);
    result := o.center;
    var h := o.extents;

    var distX := Dot(d, o.xAxis);
    if distX > h.x {
      distX := h.x;
    } else if distX < -h.x {
      distX := h.x;
    }
    result := Add(result, Scale(distX, o.xAxis));

    var distY := Dot(d, o.yAxis);
    if distY > h.y {
      distY := h.y;
    } else if distY < -h.y {
      distY := h.y;
    }
    result := Add(result, Scale(distY, o.yAxis));

    var distZ := Dot(d, o.zAxis);
    if distZ > h.z {
      distZ := h.z;
    } else if distZ < -h.z {
      distZ := h.z;
    }
    result := Add(result, Scale(distZ, o.zAxis));
  }

  /** With orthonormal axes and non-negative extents the engine's point lies in the box. */
  lemma ClosestPtAsWrittenInBox(p: Vec3, o: ObbGeom)
    requires Orthonormal(o.xAxis, o.yAxis, o.zAxis) && NonNegative(o.extents)
    ensures WithinExtents(Projections(ClosestPtAsWritten(p, o), o.center, o.xAxis, o.yAxis, o.zAxis), o.extents)
  {
    var dist := Projections(p, o.center, o.xAxis, o.yAxis, o.zAxis);
    BoxPointCoordinates(o.center, o.xAxis, o.yAxis, o.zAxis,
                        FlipClamp(dist.x, o.extents.x), FlipClamp(dist.y, o.extents.y), FlipClamp(dist.z, o.extents.z));
  }

  /**
   * With orthonormal axes the engine's point is the true closest point
   * exactly when no projection lies below the negative half extent of a
   * box that is not flat on that axis.
   */
  lemma ClosestPtAsWrittenIsCorrectIff(p: Vec3, o: ObbGeom)
    requires Orthonormal(o.xAxis, o.yAxis, o.zAxis) && NonNegative(o.extents)
    ensures var d, h := Projections(p, o.center, o.xAxis, o.yAxis, o.zAxis), o.extents;
            ClosestPtAsWritten(p, o) == ClosestPtCorrected(p, o) <==>
            (d.x >= -h.x || h.x == 0.0) && (d.y >= -h.y || h.y == 0.0) && (d.z >= -h.z || h.z == 0.0)
  {
    var d, h := Projections(p, o.center, o.xAxis, o.yAxis, o.zAxis), o.extents;
    var u := Vec3(FlipClamp(d.x, h.x), FlipClamp(d.y, h.y), FlipClamp(d.z, h.z));
    var v := Vec3(ClampToExtent(d.x, h.x), ClampToExtent(d.y, h.y), ClampToExtent(d.z, h.z));
    assert ClosestPtCorrected(p, o) == BoxPoint(o.center, o.xAxis, o.yAxis, o.zAxis, v.x, v.y, v.z);
    BoxPointCoordinates(o.center, o.xAxis, o.yAxis, o.zAxis, u.x, u.y, u.z);
    BoxPointCoordinates(o.center, o.xAxis, o.yAxis, o.zAxis, v.x, v.y, v.z);
  }

  /**
   * The corrected point moves each box coordinate of p only as far as
   * needed to reach the box: by max(|d| - h, 0) on every axis.
   */
  lemma ClosestPtCorrectedGap(p: Vec3, o: ObbGeom)
    requires Orthonormal(o.xAxis, o.yAxis, o.zAxis) && NonNegative(o.extents)
    ensures var d, h := Projections(p, o.center, o.xAxis, o.yAxis, o.zAxis), o.extents;
            var q := Projections(ClosestPtCorrected(p, o), o.center, o.xAxis, o.yAxis, o.zAxis);
            Abs(d.x - q.x) == Max(Abs(d.x) - h.x, 0.0) &&
            Abs(d.y - q.y) == Max(Abs(d.y) - h.y, 0.0) &&
            Abs(d.z - q.z) == Max(Abs(d.z) - h.z, 0.0)
  {
    var d, h := Projections(p, o.center, o.xAxis, o.yAxis, o.zAxis), o.extents;
    var v := Vec3(ClampToExtent(d.x, h.x), ClampToExtent(d.y, h.y), ClampToExtent(d.z, h.z));
    assert ClosestPtCorrected(p, o) == BoxPoint(o.center, o.xAxis, o.yAxis, o.zAxis, v.x, v.y, v.z);
    BoxPointCoordinates(o.center, o.xAxis, o.yAxis, o.zAxis, v.x, v.y, v.z);
  }

  // ---------------------------------------------------------------------
  // intersectsVolume
  // ---------------------------------------------------------------------

  /** The point q lies within the sphere's actual radius of its center. */
  predicate WithinSphere(q: Vec3, s: SphereGeom) {
    var diff := Sub(q, s.center);
    Dot(diff, diff) <= Square(s.WorldRadius())
  }

  /** intersectsVolume(sphere): the engine's closest point within the sphere's actual radius. */
  predicate IntersectsSphere(o: ObbGeom, s: SphereGeom) {
    WithinSphere(ClosestPtAsWritten(s.center, o), s)
  }

  /** The same test on the corrected closest point. */
  predicate IntersectsSphereCorrected(o: ObbGeom, s: SphereGeom) {
    WithinSphere(ClosestPtCorrected(s.center, o), s)
  }

  /** A point of the box, given in box coordinates within the extents, is its own closest point. */
  lemma ClosestPtOfInsidePoint(o: ObbGeom, u: real, v: real, w: real)
    requires Orthonormal(o.xAxis, o.yAxis, o.zAxis)
    requires WithinExtents(Vec3(u, v, w), o.extents)
    ensures var p := BoxPoint(o.center, o.xAxis, o.yAxis, o.zAxis, u, v, w);
            ClosestPtAsWritten(p, o) == p && ClosestPtCorrected(p, o) == p
  {
    var p := BoxPoint(o.center, o.xAxis, o.yAxis, o.zAxis, u, v, w);
    BoxPointCoordinates(o.center, o.xAxis, o.yAxis, o.zAxis, u, v, w);
    var d := Projections(p, o.center, o.xAxis, o.yAxis, o.zAxis);
    assert d == Vec3(u, v, w);
    assert FlipClamp(d.x, o.extents.x) == u && FlipClamp(d.y, o.extents.y) == v && FlipClamp(d.z, o.extents.z) == w;
    assert ClampToExtent(d.x, o.extents.x) == u && ClampToExtent(d.y, o.extents.y) == v && ClampToExtent(d.z, o.extents.z) == w;
    assert ClosestPtCorrected(p, o) == BoxPoint(o.center, o.xAxis, o.yAxis, o.zAxis,
      ClampToExtent(d.x, o.extents.x), ClampToExtent(d.y, o.extents.y), ClampToExtent(d.z, o.extents.z));
  }

  /**
   * A sphere whose center lies in the box, given in box coordinates
   * (u, v, w) within the extents, always intersects it.
   */
  lemma IntersectsSphereCenterInside(o: ObbGeom, s: SphereGeom, u: real, v: real, w: real)
    requires Orthonormal(o.xAxis, o.yAxis, o.zAxis)
    requires WithinExtents(Vec3(u, v, w), o.extents)
    requires s.center == BoxPoint(o.center, o.xAxis, o.yAxis, o.zAxis, u, v, w)
    ensures IntersectsSphere(o, s) && IntersectsSphereCorrected(o, s)
  {
    ClosestPtOfInsidePoint(o, u, v, w);
    CenterWithinSphere(s);
  }

  /** A sphere's center lies within it, whatever the sign of its radius. */
  lemma CenterWithinSphere(s: SphereGeom)
    ensures WithinSphere(s.center, s)
  {
    var r := s.WorldRadius();
    assert Sub(s.center, s.center) == Zero;
    if r < 0.0 {
      MulNonPositive(r, r);
    }
  }

  /** How far a box coordinate x sticks out of [-h, h]. */
  function Gap(x: real, h: real): real {
    Max(Abs(x) - h, 0.0)
  }

  /** How far the engine's clamp moves x: beyond -h it goes to the far face h. */
  function FlipGap(x: real, h: real): real {
    if x < -h then h - x else Gap(x, h)
  }

  /**
   * The meaning of the corrected sphere test: with the sphere's center at
   * box coordinates (a, b, c) (every point has such coordinates over
   * orthonormal axes), the box and the sphere intersect exactly when the
   * squared distance from the center to the box, the sum of the squared
   * amounts by which the coordinates stick out, is within the radius
   * squared.
   */
  lemma IntersectsSphereCorrectedIff(o: ObbGeom, s: SphereGeom, a: real, b: real, c: real)
    requires Orthonormal(o.xAxis, o.yAxis, o.zAxis) && NonNegative(o.extents)
    requires s.center == BoxPoint(o.center, o.xAxis, o.yAxis, o.zAxis, a, b, c)
    ensures var h, r := o.extents, s.WorldRadius();
            IntersectsSphereCorrected(o, s) <==>
            Square(Gap(a, h.x)) + Square(Gap(b, h.y)) + Square(Gap(c, h.z)) <= Square(r)
  {
    var h := o.extents;
    BoxPointCoordinates(o.center, o.xAxis, o.yAxis, o.zAxis, a, b, c);
    ClosestPtPointOBBPoint(s.center, o.center, o.xAxis, o.yAxis, o.zAxis, h);
    var u, v, w := ClampToExtent(a, h.x), ClampToExtent(b, h.y), ClampToExtent(c, h.z);
    assert ClosestPtCorrected(s.center, o) == BoxPoint(o.center, o.xAxis, o.yAxis, o.zAxis, u, v, w);
    BoxPointsDistSq(o.center, o.xAxis, o.yAxis, o.zAxis, u, v, w, a, b, c);
    SquaredOffset(a, u, Gap(a, h.x));
    SquaredOffset(b, v, Gap(b, h.y));
    SquaredOffset(c, w, Gap(c, h.z));
    var diff := Sub(ClosestPtCorrected(s.center, o), s.center);
    assert Dot(diff, diff) == Square(Gap(a, h.x)) + Square(Gap(b, h.y)) + Square(Gap(c, h.z));
  }

  /** The same for the engine's test: the far face stands in for the near one below -h. */
  lemma IntersectsSphereIff(o: ObbGeom, s: SphereGeom, a: real, b: real, c: real)
    requires Orthonormal(o.xAxis, o.yAxis, o.zAxis) && NonNegative(o.extents)
    requires s.center == BoxPoint(o.center, o.xAxis, o.yAxis, o.zAxis, a, b, c)
    ensures var h, r := o.extents, s.WorldRadius();
            IntersectsSphere(o, s) <==>
            Square(FlipGap(a, h.x)) + Square(FlipGap(b, h.y)) + Square(FlipGap(c, h.z)) <= Square(r)
  {
    var h := o.extents;
    BoxPointCoordinates(o.center, o.xAxis, o.yAxis, o.zAxis, a, b, c);
    var u, v, w := FlipClamp(a, h.x), FlipClamp(b, h.y), FlipClamp(c, h.z);
    assert ClosestPtAsWritten(s.center, o) == BoxPoint(o.center, o.xAxis, o.yAxis, o.zAxis, u, v, w);
    BoxPointsDistSq(o.center, o.xAxis, o.yAxis, o.zAxis, u, v, w, a, b, c);
    FlipOffset(a, h.x);
    FlipOffset(b, h.y);
    FlipOffset(c, h.z);
    SquaredOffset(a, u, FlipGap(a, h.x));
    SquaredOffset(b, v, FlipGap(b, h.y));
    SquaredOffset(c, w, FlipGap(c, h.z));
    var diff := Sub(ClosestPtAsWritten(s.center, o), s.center);
    assert Dot(diff, diff) == Square(FlipGap(a, h.x)) + Square(FlipGap(b, h.y)) + Square(FlipGap(c, h.z));
  }

  lemma FlipOffset(x: real, h: real)
    requires h >= 0.0
    ensures Abs(x - FlipClamp(x, h)) == FlipGap(x, h)
  {
  }

  lemma SquaredOffset(x: real, q: real, g: real)
    requires Abs(x - q) == g
    ensures Square(q - x) == Square(g)
  {
    assert (q - x) * (q - x) == (x - q) * (x - q);
    if x - q < 0.0 {
      assert g == -(x - q);
    }
  }

  /**
   * The engine's clamp measures a sphere whose center lies beyond the
   * face at -h on the x axis (and within the box on the other two) against
   * the far face at +h: when the sphere reaches the near face but not the
   * far one, the engine reports no intersection where the corrected test
   * reports one. The unit box at the origin and the unit sphere at
   * (-1.5, 0, 0) are such a pair.
   */
  lemma IntersectsSphereMissesNearFace(o: ObbGeom, s: SphereGeom, a: real, b: real, c: real)
    requires Orthonormal(o.xAxis, o.yAxis, o.zAxis) && NonNegative(o.extents)
    requires s.center == BoxPoint(o.center, o.xAxis, o.yAxis, o.zAxis, a, b, c)
    requires a < -o.extents.x && Abs(b) <= o.extents.y && Abs(c) <= o.extents.z
    requires -a - o.extents.x <= s.WorldRadius() < o.extents.x - a
    ensures !IntersectsSphere(o, s) && IntersectsSphereCorrected(o, s)
  {
    IntersectsSphereIff(o, s, a, b, c);
    IntersectsSphereCorrectedIff(o, s, a, b, c);
    NearFaceGaps(a, b, c, o.extents, s.WorldRadius());
  }

  lemma NearFaceGaps(a: real, b: real, c: real, h: Vec3, r: real)
    requires NonNegative(h)
    requires a < -h.x && Abs(b) <= h.y && Abs(c) <= h.z
    requires -a - h.x <= r < h.x - a
    ensures Square(Gap(a, h.x)) + Square(Gap(b, h.y)) + Square(Gap(c, h.z)) <= Square(r)
    ensures Square(FlipGap(a, h.x)) + Square(FlipGap(b, h.y)) + Square(FlipGap(c, h.z)) > Square(r)
  {
    assert Gap(b, h.y) == 0.0 && Gap(c, h.z) == 0.0 && FlipGap(b, h.y) == 0.0 && FlipGap(c, h.z) == 0.0;
    SquareMonotone(Gap(a, h.x), r);
    SquareStrictMonotone(r, FlipGap(a, h.x));
  }

  /**
   * intersectsVolume(capsule): the least segment-triangle squared distance
   * over the 12 triangles within the capsule's actual radius squared,
   * that is, some triangle within it.
   */
  predicate IntersectsCapsule(o: ObbGeom, c: CapsuleGeom) {
    SomeTriangleWithin(c.actualStart, c.actualEnd, o.Triangles(), c.actualRadius * c.actualRadius)
  }

  /** The loop of intersectsVolume(capsule): some triangle comes within the capsule's actual radius. */
  method IntersectsCapsuleSteps(o: ObbGeom, c: CapsuleGeom) returns (b: bool)
    ensures b == SomeTriangleWithin(c.actualStart, c.actualEnd, o.Triangles(), c.actualRadius * c.actualRadius)
  {
    var triangles := o.Triangles();
    var radius2 := c.actualRadius * c.actualRadius;
    b := MinTriangleDistWithin(c.actualStart, c.actualEnd, triangles, radius2);
  }

  /**
   * Every box triangle is degenerate, so the capsule intersects as soon
   * as its segment comes within its radius of the segment between the
   * first two vertices of any triangle.
   */
  lemma IntersectsCapsuleNearEdge(o: ObbGeom, c: CapsuleGeom, k: nat)
    requires k < 12
    requires SegmentsClosest(c.actualStart, c.actualEnd, o.Triangles()[k].v1, o.Triangles()[k].v2).dist2
             <= c.actualRadius * c.actualRadius
    ensures IntersectsCapsule(o, c)
  {
    BoxTrianglesOnFaces(o.center, o.EdgeX(), o.EdgeY(), o.EdgeZ(), k);
    DegenerateTriangleWithin(c.actualStart, c.actualEnd, o.Triangles(), k, c.actualRadius * c.actualRadius);
  }
}
