// The point/oriented-box query of GeometryUtils: the closest point of a
// box to a point, and the normal of the face the point is least deep
// behind. The box is its world center, three axes and its actual
// (scaled) half extents, all computed from the transform by the caller.
module GeometryBox {
  import opened Vectors

  /** The clamp of a projection to [-h, h], as the engine writes it. */
  function ClampToExtent(dist: real, h: real): (r: real)
    ensures h >= 0.0 ==> -h <= r <= h
    ensures h >= 0.0 && -h <= dist <= h ==> r == dist
    ensures h >= 0.0 ==> Abs(dist - r) == Max(Abs(dist) - h, 0.0)
  {
    if dist > h then h else if dist < -h then -h else dist
  }

  /** The engine's `dist < 0 ? -1 : 1`. */
  function SignOf(x: real): (s: real)
    ensures s * x == Abs(x)
  {
    if x < 0.0 then -1.0 else 1.0
  }

  /**
   * The axis (0, 1, 2 for x, y, z) of least depth, depth being h - |dist|;
   * a later axis wins only with a strictly smaller depth.
   */
  function FaceAxis(depth: Vec3): (k: nat)
    ensures k < 3
    ensures forall j :: 0 <= j < 3 ==> At(depth, k) <= At(depth, j)
    ensures forall j :: 0 <= j < k ==> At(depth, j) > At(depth, k)
  {
    if depth.y < depth.x then (if depth.z < depth.y then 2 else 1)
    else if depth.z < depth.x then 2 else 0
  }

  function AxisAt(x: Vec3, y: Vec3, z: Vec3, k: nat): Vec3
    requires k < 3
  {
    if k == 0 then x else if k == 1 then y else z
  }

  /** center + dx X + dy Y + dz Z. */
  function BoxPoint(center: Vec3, xAxis: Vec3, yAxis: Vec3, zAxis: Vec3, dx: real, dy: real, dz: real): Vec3 {
    Add(Add(Add(center, Scale(dx, xAxis)), Scale(dy, yAxis)), Scale(dz, zAxis))
  }

  /** The projections of p - center on the three axes. */
  function Projections(p: Vec3, center: Vec3, xAxis: Vec3, yAxis: Vec3, zAxis: Vec3): Vec3 {
    var d := Sub(p, center);
    Vec3(Dot(d, xAxis), Dot(d, yAxis), Dot(d, zAxis))
  }

  /** The closest point and the face normal, the value and the out-parameter of the engine. */
  datatype PointAndNormal = PointAndNormal(point: Vec3, normal: Vec3)

  /**
   * getClosestPointBetweenPointAndOBB: each projection clamped to
   * [-h, h] and stepped along its axis from the center; the normal is the
   * axis of least depth, pointing to the side of p.
   */
  function ClosestPtPointOBB(p: Vec3, center: Vec3, xAxis: Vec3, yAxis: Vec3, zAxis: Vec3, h: Vec3): PointAndNormal {
    var dist := Projections(p, center, xAxis, yAxis, zAxis);
    var depth := Vec3(h.x - Abs(dist.x), h.y - Abs(dist.y), h.z - Abs(dist.z));
    var k := FaceAxis(depth);
    PointAndNormal(
      BoxPoint(center, xAxis, yAxis, zAxis,
               ClampToExtent(dist.x, h.x), ClampToExtent(dist.y, h.y), ClampToExtent(dist.z, h.z)),
      Scale(SignOf(At(dist, k)), AxisAt(xAxis, yAxis, zAxis, k)))
  }

  /** One axis of the engine's clamp: above h becomes h, below -h becomes -h. */
  method ClampStep(dist: real, h: real) returns (r: real)
    ensures r == ClampToExtent(dist, h)
  {
    r := dist;
    if r > h {
      r := h;
    } else if r < -h {
      r := -h;
    }
  }

  /**
   * The engine's step-by-step computation: result starts at the center
   * and moves along each axis by the clamped projection; the normal and
   * the least depth are replaced by a later axis only when it is strictly
   * less deep.
   */
  method ClosestPtPointOBBSteps(p: Vec3, center: Vec3, xAxis: Vec3, yAxis: Vec3, zAxis: Vec3, h: Vec3)
    returns (result: Vec3, planeNormal: Vec3)
    ensures PointAndNormal(result, planeNormal) == ClosestPtPointOBB(p, center, xAxis, yAxis, zAxis, h)
  {
    ghost var dist := Projections(p, center, xAxis, yAxis, zAxis);
    ghost var depths := Vec3(h.x - Abs(dist.x), h.y - Abs(dist.y), h.z - Abs(dist.z));
    planeNormal := Zero;
    var d := Sub(p, center);
    result := center;

    var distX := Dot(d, xAxis);
    planeNormal := Scale(if distX < 0.0 then -1.0 else 1.0, xAxis);
    var minDepth := h.x - Abs(distX);
    ghost var k := 0;
    distX := ClampStep(distX, h.x);
    result := Add(result, Scale(distX, xAxis));
    assert distX == ClampToExtent(dist.x, h.x);
    assert planeNormal == Scale(SignOf(dist.x), xAxis) && minDepth == depths.x;

    var distY := Dot(d, yAxis);
    var depth := h.y - Abs(distY);
    if depth < minDepth {
      minDepth := depth;
      planeNormal := Scale(if distY < 0.0 then -1.0 else 1.0, yAxis);
      k := 1;
    }
    distY := ClampStep(distY, h.y);
    result := Add(result, Scale(distY, yAxis));
    assert distY == ClampToExtent(dist.y, h.y);
    assert k == (if depths.y < depths.x then 1 else 0);
    assert minDepth == At(depths, k) && planeNormal == Scale(SignOf(At(dist, k)), AxisAt(xAxis, yAxis, zAxis, k));

    var distZ := Dot(d, zAxis);
    depth := h.z - Abs(distZ);
    if depth < minDepth {
      minDepth := depth;
      planeNormal := Scale(if distZ < 0.0 then -1.0 else 1.0, zAxis);
      k := 2;
    }
    distZ := ClampStep(distZ, h.z);
    result := Add(result, Scale(distZ, zAxis));
    assert distZ == ClampToExtent(dist.z, h.z);
    assert k == FaceAxis(depths);
    assert planeNormal == Scale(SignOf(At(dist, k)), AxisAt(xAxis, yAxis, zAxis, k));
    assert result == BoxPoint(center, xAxis, yAxis, zAxis, distX, distY, distZ);
    ClosestPtPointOBBUnfolded(p, center, xAxis, yAxis, zAxis, h, dist, k);
  }

  /** An unfolding step: ClosestPtPointOBB written out at the given projections and face axis. */
  lemma ClosestPtPointOBBUnfolded(p: Vec3, center: Vec3, xAxis: Vec3, yAxis: Vec3, zAxis: Vec3, h: Vec3,
                                  dist: Vec3, k: nat)
    requires dist == Projections(p, center, xAxis, yAxis, zAxis)
    requires k == FaceAxis(Vec3(h.x - Abs(dist.x), h.y - Abs(dist.y), h.z - Abs(dist.z)))
    ensures k < 3
    ensures ClosestPtPointOBB(p, center, xAxis, yAxis, zAxis, h) ==
            PointAndNormal(BoxPoint(center, xAxis, yAxis, zAxis,
                                    ClampToExtent(dist.x, h.x), ClampToExtent(dist.y, h.y), ClampToExtent(dist.z, h.z)),
                           Scale(SignOf(At(dist, k)), AxisAt(xAxis, yAxis, zAxis, k)))
  {
  }

  /** The point of the closest-point pair, without its normal. */
  lemma ClosestPtPointOBBPoint(p: Vec3, center: Vec3, xAxis: Vec3, yAxis: Vec3, zAxis: Vec3, h: Vec3)
    ensures var dist := Projections(p, center, xAxis, yAxis, zAxis);
            ClosestPtPointOBB(p, center, xAxis, yAxis, zAxis, h).point ==
            BoxPoint(center, xAxis, yAxis, zAxis,
                     ClampToExtent(dist.x, h.x), ClampToExtent(dist.y, h.y), ClampToExtent(dist.z, h.z))
  {
  }

  /** The box coordinates of center + dx X + dy Y + dz Z are (dx, dy, dz) for orthonormal axes. */
  lemma BoxPointCoordinates(center: Vec3, xAxis: Vec3, yAxis: Vec3, zAxis: Vec3, dx: real, dy: real, dz: real)
    requires Orthonormal(xAxis, yAxis, zAxis)
    ensures Projections(BoxPoint(center, xAxis, yAxis, zAxis, dx, dy, dz), center, xAxis, yAxis, zAxis)
            == Vec3(dx, dy, dz)
  {
    var q := Sub(BoxPoint(center, xAxis, yAxis, zAxis, dx, dy, dz), center);
    assert q == Add(Add(Scale(dx, xAxis), Scale(dy, yAxis)), Scale(dz, zAxis));
    CoordinateOf(xAxis, yAxis, zAxis, dx, dy, dz, xAxis);
    CoordinateOf(xAxis, yAxis, zAxis, dx, dy, dz, yAxis);
    CoordinateOf(xAxis, yAxis, zAxis, dx, dy, dz, zAxis);
    assert Dot(yAxis, xAxis) == Dot(xAxis, yAxis);
    assert Dot(zAxis, xAxis) == Dot(xAxis, zAxis);
    assert Dot(zAxis, yAxis) == Dot(yAxis, zAxis);
  }

  /** (dx X + dy Y + dz Z) . u = dx (X . u) + dy (Y . u) + dz (Z . u). */
  lemma CoordinateOf(xAxis: Vec3, yAxis: Vec3, zAxis: Vec3, dx: real, dy: real, dz: real, u: Vec3)
    ensures Dot(Add(Add(Scale(dx, xAxis), Scale(dy, yAxis)), Scale(dz, zAxis)), u) ==
            dx * Dot(xAxis, u) + dy * Dot(yAxis, u) + dz * Dot(zAxis, u)
  {
  }

  /** Two points given in the same box frame differ by the frame combination of their coordinate differences. */
  lemma BoxPointDiff(center: Vec3, xAxis: Vec3, yAxis: Vec3, zAxis: Vec3, u: real, v: real, w: real, a: real, b: real, c: real)
    ensures Sub(BoxPoint(center, xAxis, yAxis, zAxis, u, v, w), BoxPoint(center, xAxis, yAxis, zAxis, a, b, c)) ==
            Add(Add(Scale(u - a, xAxis), Scale(v - b, yAxis)), Scale(w - c, zAxis))
  {
  }

  /** Over orthonormal axes the squared length of e1 X + e2 Y + e3 Z is e1^2 + e2^2 + e3^2. */
  lemma FrameLengthSq(xAxis: Vec3, yAxis: Vec3, zAxis: Vec3, e1: real, e2: real, e3: real)
    requires Orthonormal(xAxis, yAxis, zAxis)
    ensures var q := Add(Add(Scale(e1, xAxis), Scale(e2, yAxis)), Scale(e3, zAxis));
            Dot(q, q) == e1 * e1 + e2 * e2 + e3 * e3
  {
    var q := Add(Add(Scale(e1, xAxis), Scale(e2, yAxis)), Scale(e3, zAxis));
    CoordinateOf(xAxis, yAxis, zAxis, e1, e2, e3, q);
    CoordinateOf(xAxis, yAxis, zAxis, e1, e2, e3, xAxis);
    CoordinateOf(xAxis, yAxis, zAxis, e1, e2, e3, yAxis);
    CoordinateOf(xAxis, yAxis, zAxis, e1, e2, e3, zAxis);
    DotSymmetric(xAxis, q);
    DotSymmetric(yAxis, q);
    DotSymmetric(zAxis, q);
    DotSymmetric(xAxis, yAxis);
    DotSymmetric(xAxis, zAxis);
    DotSymmetric(yAxis, zAxis);
  }

  /** The squared distance of two points given in one orthonormal box frame is that of their coordinates. */
  lemma BoxPointsDistSq(center: Vec3, xAxis: Vec3, yAxis: Vec3, zAxis: Vec3, u: real, v: real, w: real, a: real, b: real, c: real)
    requires Orthonormal(xAxis, yAxis, zAxis)
    ensures var diff := Sub(BoxPoint(center, xAxis, yAxis, zAxis, u, v, w), BoxPoint(center, xAxis, yAxis, zAxis, a, b, c));
            Dot(diff, diff) == Square(u - a) + Square(v - b) + Square(w - c)
  {
    BoxPointDiff(center, xAxis, yAxis, zAxis, u, v, w, a, b, c);
    FrameLengthSq(xAxis, yAxis, zAxis, u - a, v - b, w - c);
  }

  /**
   * With orthonormal axes and non-negative half extents, the closest
   * point's box coordinates are p's clamped to [-h, h]: it lies in the box,
   * it is p itself in box coordinates when p is inside, and on each axis
   * it is off p's coordinate by exactly how far p sticks out.
   */
  lemma ClosestPtPointOBBInBox(p: Vec3, center: Vec3, xAxis: Vec3, yAxis: Vec3, zAxis: Vec3, h: Vec3)
    requires Orthonormal(xAxis, yAxis, zAxis)
    requires h.x >= 0.0 && h.y >= 0.0 && h.z >= 0.0
    ensures var q := ClosestPtPointOBB(p, center, xAxis, yAxis, zAxis, h).point;
            var dist := Projections(p, center, xAxis, yAxis, zAxis);
            Projections(q, center, xAxis, yAxis, zAxis) ==
              Vec3(ClampToExtent(dist.x, h.x), ClampToExtent(dist.y, h.y), ClampToExtent(dist.z, h.z))
  {
    var dist := Projections(p, center, xAxis, yAxis, zAxis);
    BoxPointCoordinates(center, xAxis, yAxis, zAxis,
                        ClampToExtent(dist.x, h.x), ClampToExtent(dist.y, h.y), ClampToExtent(dist.z, h.z));
  }

  /** A value u in [-h, h] lies on the far side of the clamp c of d: (u - c)(d - c) <= 0, with e = d - c. */
  lemma ClampOvershoot(d: real, h: real, u: real, e: real)
    requires -h <= u <= h && e == d - ClampToExtent(d, h)
    ensures (u - ClampToExtent(d, h)) * e <= 0.0
  {
    if d > h {
      MulNonNegative(h - u, d - h);
    } else if d < -h {
      MulNonNegative(u + h, -(d + h));
    }
  }

  /**
   * With orthonormal axes, no point of the box (box coordinates within
   * [-h, h]) is nearer to p than the closest point.
   */
  lemma ClosestPtPointOBBIsClosest(p: Vec3, center: Vec3, xAxis: Vec3, yAxis: Vec3, zAxis: Vec3, h: Vec3,
                                   u: real, v: real, w: real)
    requires Orthonormal(xAxis, yAxis, zAxis)
    requires -h.x <= u <= h.x && -h.y <= v <= h.y && -h.z <= w <= h.z
    ensures DistSq(p, ClosestPtPointOBB(p, center, xAxis, yAxis, zAxis, h).point) <=
            DistSq(p, BoxPoint(center, xAxis, yAxis, zAxis, u, v, w))
  {
    hide *;
    var dist := Projections(p, center, xAxis, yAxis, zAxis);
    var cx, cy, cz := ClampToExtent(dist.x, h.x), ClampToExtent(dist.y, h.y), ClampToExtent(dist.z, h.z);
    var q := BoxPoint(center, xAxis, yAxis, zAxis, cx, cy, cz);
    var x := BoxPoint(center, xAxis, yAxis, zAxis, u, v, w);
    var delta := Sub(p, q);
    ClosestPtPointOBBPoint(p, center, xAxis, yAxis, zAxis, h);
    BoxPointCoordinates(center, xAxis, yAxis, zAxis, cx, cy, cz);
    ResidualAgainstAxes(p, q, center, xAxis, yAxis, zAxis);
    BoxPointDiff(center, xAxis, yAxis, zAxis, u, v, w, cx, cy, cz);
    CoordinateLin(xAxis, yAxis, zAxis, u - cx, v - cy, w - cz, delta);
    DotSymmetric(delta, Sub(x, q));
    ClampOvershoot(dist.x, h.x, u, Dot(xAxis, delta));
    ClampOvershoot(dist.y, h.y, v, Dot(yAxis, delta));
    ClampOvershoot(dist.z, h.z, w, Dot(zAxis, delta));
    Lin3NonPositive(u - cx, Dot(xAxis, delta), v - cy, Dot(yAxis, delta), w - cz, Dot(zAxis, delta));
    ObtuseIsCloser(p, q, x);
  }

  /** CoordinateOf, with the combination kept as one Lin3 term. */
  lemma CoordinateLin(xAxis: Vec3, yAxis: Vec3, zAxis: Vec3, dx: real, dy: real, dz: real, u: Vec3)
    ensures Dot(Add(Add(Scale(dx, xAxis), Scale(dy, yAxis)), Scale(dz, zAxis)), u) ==
            Lin3(dx, Dot(xAxis, u), dy, Dot(yAxis, u), dz, Dot(zAxis, u))
  {
    CoordinateOf(xAxis, yAxis, zAxis, dx, dy, dz, u);
  }

  lemma Lin3NonPositive(a: real, x: real, b: real, y: real, c: real, z: real)
    requires a * x <= 0.0 && b * y <= 0.0 && c * z <= 0.0
    ensures Lin3(a, x, b, y, c, z) <= 0.0
  {
  }

  /** The box coordinates of p - q are the differences of those of p and q. */
  lemma ResidualAgainstAxes(p: Vec3, q: Vec3, center: Vec3, xAxis: Vec3, yAxis: Vec3, zAxis: Vec3)
    ensures var dp, dq := Projections(p, center, xAxis, yAxis, zAxis), Projections(q, center, xAxis, yAxis, zAxis);
            Dot(xAxis, Sub(p, q)) == dp.x - dq.x && Dot(yAxis, Sub(p, q)) == dp.y - dq.y &&
            Dot(zAxis, Sub(p, q)) == dp.z - dq.z
  {
  }

  /**
   * The normal is the axis of least depth, turned toward p: its product
   * with p - center is |dist| on that axis, never negative.
   */
  lemma FaceNormalFacesPoint(p: Vec3, center: Vec3, xAxis: Vec3, yAxis: Vec3, zAxis: Vec3, h: Vec3)
    ensures var r := ClosestPtPointOBB(p, center, xAxis, yAxis, zAxis, h);
            var dist := Projections(p, center, xAxis, yAxis, zAxis);
            var depth := Vec3(h.x - Abs(dist.x), h.y - Abs(dist.y), h.z - Abs(dist.z));
            var k := FaceAxis(depth);
            (r.normal == AxisAt(xAxis, yAxis, zAxis, k) || r.normal == Neg(AxisAt(xAxis, yAxis, zAxis, k))) &&
            Dot(Sub(p, center), r.normal) == Abs(At(dist, k))
  {
    var dist := Projections(p, center, xAxis, yAxis, zAxis);
    var depth := Vec3(h.x - Abs(dist.x), h.y - Abs(dist.y), h.z - Abs(dist.z));
    var k := FaceAxis(depth);
    var axis := AxisAt(xAxis, yAxis, zAxis, k);
    assert At(dist, k) == Dot(Sub(p, center), axis);
    DotScaled(Sub(p, center), SignOf(At(dist, k)), axis);
  }

  lemma DotScaled(u: Vec3, s: real, v: Vec3)
    ensures Dot(u, Scale(s, v)) == s * Dot(u, v)
  {
  }
}
