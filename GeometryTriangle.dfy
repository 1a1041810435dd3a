// The triangle queries of GeometryUtils: the normal, barycentric
// coordinates, the point-in-triangle test, the closest point of a triangle
// by Voronoi regions, and the segment/triangle intersection and closest
// points. A triangle is given by its three vertices a, b, c (the engine's
// point1, point2, point3).
module GeometryTriangle {
  import opened Vectors
  import opened GeometryUtils
  import opened GeometryPlane

  // ---------------------------------------------------------------------
  // Normal, barycentric coordinates, containment
  // ---------------------------------------------------------------------

  /** computeNormalFromPoints: cross(b - a, c - b), orthogonal to both edges. */
  function Normal(a: Vec3, b: Vec3, c: Vec3): (n: Vec3)
    ensures Dot(n, Sub(b, a)) == 0.0 && Dot(n, Sub(c, b)) == 0.0
  {
    Cross(Sub(b, a), Sub(c, b))
  }

  /** The normal is also cross(b - a, c - a), the form the Plane constructor uses. */
  lemma NormalFromFirstVertex(a: Vec3, b: Vec3, c: Vec3)
    ensures Normal(a, b, c) == Cross(Sub(b, a), Sub(c, a))
  {
  }

  /** The point a + v (b - a) + w (c - a), barycentric (1 - v - w, v, w). */
  function TrianglePoint(a: Vec3, b: Vec3, c: Vec3, v: real, w: real): Vec3 {
    Add(Add(a, Scale(v, Sub(b, a))), Scale(w, Sub(c, a)))
  }

  /** v x + w y. */
  function Comb(v: real, x: real, w: real, y: real): real {
    v * x + w * y
  }

  /** The Gram determinant |b - a|^2 |c - a|^2 - ((b - a) . (c - a))^2; zero for a degenerate triangle. */
  function Gram(a: Vec3, b: Vec3, c: Vec3): real {
    var vec0, vec1 := Sub(b, a), Sub(c, a);
    GramOf(Dot(vec0, vec0), Dot(vec0, vec1), Dot(vec1, vec1))
  }

  function GramOf(d00: real, d01: real, d11: real): real {
    d00 * d11 - d01 * d01
  }

  /** A triangle (a, b, b) has Gram determinant 0, so no barycentric coordinates exist for it. */
  lemma DegenerateGramIsZero(a: Vec3, b: Vec3)
    ensures Gram(a, b, b) == 0.0
  {
    var e := Sub(b, a);
    assert Gram(a, b, b) == Dot(e, e) * Dot(e, e) - Dot(e, e) * Dot(e, e);
  }

  /** Cramer's rule for v in v d00 + w d01 = d20, v d01 + w d11 = d21. */
  function BaryV(d00: real, d01: real, d11: real, d20: real, d21: real): real
    requires GramOf(d00, d01, d11) != 0.0
  {
    (d11 * d20 - d01 * d21) / GramOf(d00, d01, d11)
  }

  /** Cramer's rule for w in the same system. */
  function BaryW(d00: real, d01: real, d11: real, d20: real, d21: real): real
    requires GramOf(d00, d01, d11) != 0.0
  {
    (d00 * d21 - d01 * d20) / GramOf(d00, d01, d11)
  }

  /**
   * computeBarycentricCoord: (1 - v - w, v, w), whose components sum to 1.
   * A degenerate triangle (zero denominator) makes the engine divide by
   * zero; that case is None.
   */
  function Barycentric(p: Vec3, a: Vec3, b: Vec3, c: Vec3): (r: Option<Vec3>)
    ensures r.None? <==> Gram(a, b, c) == 0.0
    ensures r.Some? ==> r.value.x + r.value.y + r.value.z == 1.0
  {
    var vec0, vec1, vec2 := Sub(b, a), Sub(c, a), Sub(p, a);
    var d00, d01, d11 := Dot(vec0, vec0), Dot(vec0, vec1), Dot(vec1, vec1);
    var d20, d21 := Dot(vec2, vec0), Dot(vec2, vec1);
    if GramOf(d00, d01, d11) == 0.0 then None
    else
      var v := BaryV(d00, d01, d11, d20, d21);
      var w := BaryW(d00, d01, d11, d20, d21);
      Some(Vec3(1.0 - v - w, v, w))
  }

  /**
   * isPointWithinTriangle: v >= 0, w >= 0 and v + w <= 1. The NaN
   * coordinates of a degenerate triangle fail every comparison.
   */
  function IsPointWithinTriangle(p: Vec3, a: Vec3, b: Vec3, c: Vec3): bool {
    match Barycentric(p, a, b, c)
    case None => false
    case Some(r) => r.y >= 0.0 && r.z >= 0.0 && r.y + r.z <= 1.0
  }

  /** p - a, dotted with the edges, as combinations of the edge products. */
  lemma OffsetOfTrianglePoint(a: Vec3, b: Vec3, c: Vec3, v: real, w: real)
    ensures var vec0, vec1, vec2 := Sub(b, a), Sub(c, a), Sub(TrianglePoint(a, b, c, v, w), a);
            Dot(vec2, vec0) == Comb(v, Dot(vec0, vec0), w, Dot(vec0, vec1)) &&
            Dot(vec2, vec1) == Comb(v, Dot(vec0, vec1), w, Dot(vec1, vec1))
  {
    var vec0, vec1 := Sub(b, a), Sub(c, a);
    assert Sub(TrianglePoint(a, b, c, v, w), a) == Add(Scale(v, vec0), Scale(w, vec1));
    DotOfComb(vec0, vec1, v, w, vec0);
    DotOfComb(vec0, vec1, v, w, vec1);
    assert Dot(vec1, vec0) == Dot(vec0, vec1);
  }

  /** (v e0 + w e1) . x = v (e0 . x) + w (e1 . x). */
  lemma DotOfComb(e0: Vec3, e1: Vec3, v: real, w: real, x: Vec3)
    ensures Dot(Add(Scale(v, e0), Scale(w, e1)), x) == Comb(v, Dot(e0, x), w, Dot(e1, x))
  {
  }

  /** Cramer's rule recovers the weights of a combination. */
  lemma CramerRecovers(d00: real, d01: real, d11: real, v: real, w: real)
    requires GramOf(d00, d01, d11) != 0.0
    ensures BaryV(d00, d01, d11, Comb(v, d00, w, d01), Comb(v, d01, w, d11)) == v
    ensures BaryW(d00, d01, d11, Comb(v, d00, w, d01), Comb(v, d01, w, d11)) == w
  {
    var g := GramOf(d00, d01, d11);
    assert d11 * Comb(v, d00, w, d01) - d01 * Comb(v, d01, w, d11) == v * g;
    assert d00 * Comb(v, d01, w, d11) - d01 * Comb(v, d00, w, d01) == w * g;
  }

  /** Cramer's rule solves the system: the weights reproduce d20 and d21. */
  lemma CramerSolves(d00: real, d01: real, d11: real, d20: real, d21: real)
    requires GramOf(d00, d01, d11) != 0.0
    ensures var v, w := BaryV(d00, d01, d11, d20, d21), BaryW(d00, d01, d11, d20, d21);
            Comb(v, d00, w, d01) == d20 && Comb(v, d01, w, d11) == d21
  {
    var g := GramOf(d00, d01, d11);
    var v, w := BaryV(d00, d01, d11, d20, d21), BaryW(d00, d01, d11, d20, d21);
    assert v * g == d11 * d20 - d01 * d21;
    assert w * g == d00 * d21 - d01 * d20;
    assert Comb(v, d00, w, d01) * g == d20 * g;
    assert Comb(v, d01, w, d11) * g == d21 * g;
  }

  /**
   * Round trip: on a non-degenerate triangle, the barycentric coordinates
   * of a + v (b - a) + w (c - a) are (1 - v - w, v, w).
   */
  lemma BarycentricOfTrianglePoint(a: Vec3, b: Vec3, c: Vec3, v: real, w: real)
    requires Gram(a, b, c) != 0.0
    ensures Barycentric(TrianglePoint(a, b, c, v, w), a, b, c) == Some(Vec3(1.0 - v - w, v, w))
  {
    var vec0, vec1 := Sub(b, a), Sub(c, a);
    OffsetOfTrianglePoint(a, b, c, v, w);
    CramerRecovers(Dot(vec0, vec0), Dot(vec0, vec1), Dot(vec1, vec1), v, w);
  }

  /**
   * On a non-degenerate triangle, a + v (b - a) + w (c - a) is within the
   * triangle exactly when v >= 0, w >= 0 and v + w <= 1.
   */
  lemma WithinIffWeights(a: Vec3, b: Vec3, c: Vec3, v: real, w: real)
    requires Gram(a, b, c) != 0.0
    ensures IsPointWithinTriangle(TrianglePoint(a, b, c, v, w), a, b, c) <==>
            (v >= 0.0 && w >= 0.0 && v + w <= 1.0)
  {
    BarycentricOfTrianglePoint(a, b, c, v, w);
  }

  /**
   * The coordinates (v, w) locate the orthogonal projection of p onto the
   * triangle's plane: p minus that point is orthogonal to both edges from a.
   */
  lemma BarycentricProjects(p: Vec3, a: Vec3, b: Vec3, c: Vec3)
    requires Gram(a, b, c) != 0.0
    ensures var r := Barycentric(p, a, b, c).value;
            var q := TrianglePoint(a, b, c, r.y, r.z);
            Dot(Sub(p, q), Sub(b, a)) == 0.0 && Dot(Sub(p, q), Sub(c, a)) == 0.0
  {
    var vec0, vec1, vec2 := Sub(b, a), Sub(c, a), Sub(p, a);
    var d00, d01, d11 := Dot(vec0, vec0), Dot(vec0, vec1), Dot(vec1, vec1);
    var d20, d21 := Dot(vec2, vec0), Dot(vec2, vec1);
    var v, w := BaryV(d00, d01, d11, d20, d21), BaryW(d00, d01, d11, d20, d21);
    CramerSolves(d00, d01, d11, d20, d21);
    ResidualOfTrianglePoint(p, a, b, c, v, w);
  }

  /** (p - q) . edge, for q = a + v (b - a) + w (c - a), from the edge products. */
  lemma ResidualOfTrianglePoint(p: Vec3, a: Vec3, b: Vec3, c: Vec3, v: real, w: real)
    ensures var vec0, vec1, vec2 := Sub(b, a), Sub(c, a), Sub(p, a);
            var q := TrianglePoint(a, b, c, v, w);
            Dot(Sub(p, q), vec0) == Dot(vec2, vec0) - Comb(v, Dot(vec0, vec0), w, Dot(vec0, vec1)) &&
            Dot(Sub(p, q), vec1) == Dot(vec2, vec1) - Comb(v, Dot(vec0, vec1), w, Dot(vec1, vec1))
  {
    var q := TrianglePoint(a, b, c, v, w);
    assert Sub(p, q) == Sub(Sub(p, a), Sub(q, a));
    DotOfDifference(Sub(p, a), Sub(q, a), Sub(b, a));
    DotOfDifference(Sub(p, a), Sub(q, a), Sub(c, a));
    OffsetOfTrianglePoint(a, b, c, v, w);
  }

  lemma DotOfDifference(x: Vec3, y: Vec3, z: Vec3)
    ensures Dot(Sub(x, y), z) == Dot(x, z) - Dot(y, z)
  {
  }

  // ---------------------------------------------------------------------
  // Closest point of a triangle, by Voronoi regions
  // ---------------------------------------------------------------------

  /** The Voronoi regions, in the order the engine tests them. */
  datatype Region = VertexA | VertexB | EdgeAB | VertexC | EdgeAC | EdgeBC | Face

  /** The six dot products of the region tests. */
  datatype RegionDots = RegionDots(d1: real, d2: real, d3: real, d4: real, d5: real, d6: real)

  /** d1, d2 from p - a, d3, d4 from p - b and d5, d6 from p - c, each against ab and ac. */
  function DotsOf(p: Vec3, a: Vec3, b: Vec3, c: Vec3): RegionDots {
    var ab, ac := Sub(b, a), Sub(c, a);
    var ap, bp, cp := Sub(p, a), Sub(p, b), Sub(p, c);
    RegionDots(Dot(ab, ap), Dot(ac, ap), Dot(ab, bp), Dot(ac, bp), Dot(ab, cp), Dot(ac, cp))
  }

  function VA(k: RegionDots): real { k.d3 * k.d6 - k.d5 * k.d4 }

  function VB(k: RegionDots): real { k.d5 * k.d2 - k.d1 * k.d6 }

  function VC(k: RegionDots): real { k.d1 * k.d4 - k.d3 * k.d2 }

  /** The first region whose test succeeds, in the order A, B, AB, C, AC, BC, face. */
  function RegionOf(k: RegionDots): Region {
    if k.d1 <= 0.0 && k.d2 <= 0.0 then VertexA
    else if k.d3 >= 0.0 && k.d4 <= k.d3 then VertexB
    else if VC(k) <= 0.0 && k.d1 >= 0.0 && k.d3 <= 0.0 then EdgeAB
    else if k.d6 >= 0.0 && k.d5 <= k.d6 then VertexC
    else if VB(k) <= 0.0 && k.d2 >= 0.0 && k.d6 <= 0.0 then EdgeAC
    else if VA(k) <= 0.0 && k.d4 - k.d3 >= 0.0 && k.d5 - k.d6 >= 0.0 then EdgeBC
    else Face
  }

  /** The face weight v = vb / (va + vb + vc), computed as vb * (1 / (va + vb + vc)). */
  function FaceV(k: RegionDots): real
    requires VA(k) + VB(k) + VC(k) != 0.0
  {
    VB(k) * (1.0 / (VA(k) + VB(k) + VC(k)))
  }

  /** The face weight w = vc / (va + vb + vc). */
  function FaceW(k: RegionDots): real
    requires VA(k) + VB(k) + VC(k) != 0.0
  {
    VC(k) * (1.0 / (VA(k) + VB(k) + VC(k)))
  }

  /**
   * getClosestPointBetweenPointAndTriangle: the vertex itself in a vertex
   * region, the projection onto the edge in an edge region, and the
   * projection onto the plane in the face region. A zero denominator
   * (a degenerate edge or triangle) is None.
   */
  function ClosestPtPointTriangle(p: Vec3, a: Vec3, b: Vec3, c: Vec3): Option<Vec3> {
    var k := DotsOf(p, a, b, c);
    var ab, ac := Sub(b, a), Sub(c, a);
    match RegionOf(k)
    case VertexA => Some(a)
    case VertexB => Some(b)
    case EdgeAB =>
      if k.d1 - k.d3 == 0.0 then None else Some(Add(a, Scale(k.d1 / (k.d1 - k.d3), ab)))
    case VertexC => Some(c)
    case EdgeAC =>
      if k.d2 - k.d6 == 0.0 then None else Some(Add(a, Scale(k.d2 / (k.d2 - k.d6), ac)))
    case EdgeBC =>
      var den := (k.d4 - k.d3) + (k.d5 - k.d6);
      if den == 0.0 then None else Some(Add(b, Scale((k.d4 - k.d3) / den, Sub(c, b))))
    case Face =>
      if VA(k) + VB(k) + VC(k) == 0.0 then None
      else Some(Add(Add(a, Scale(FaceV(k), ab)), Scale(FaceW(k), ac)))
  }

  /** How d3..d6 follow from d1, d2 and the edge products |ab|^2, ab . ac, |ac|^2. */
  lemma DotsRelations(p: Vec3, a: Vec3, b: Vec3, c: Vec3)
    ensures var k, ab, ac := DotsOf(p, a, b, c), Sub(b, a), Sub(c, a);
            k.d3 == k.d1 - Dot(ab, ab) && k.d4 == k.d2 - Dot(ab, ac) &&
            k.d5 == k.d1 - Dot(ab, ac) && k.d6 == k.d2 - Dot(ac, ac)
  {
    var ab, ac := Sub(b, a), Sub(c, a);
    DotShift(ab, p, a, b);
    DotShift(ac, p, a, b);
    DotShift(ab, p, a, c);
    DotShift(ac, p, a, c);
    assert Dot(ac, ab) == Dot(ab, ac);
  }

  /** e . (p - y) = e . (p - x) - e . (y - x). */
  lemma DotShift(e: Vec3, p: Vec3, x: Vec3, y: Vec3)
    ensures Dot(e, Sub(p, y)) == Dot(e, Sub(p, x)) - Dot(e, Sub(y, x))
  {
  }

  /** The edge BC products: d4 - d3 = (c - b) . (p - b) and the denominator is |c - b|^2. */
  lemma EdgeBCDots(p: Vec3, a: Vec3, b: Vec3, c: Vec3)
    ensures var k, bc := DotsOf(p, a, b, c), Sub(c, b);
            k.d4 - k.d3 == Dot(bc, Sub(p, b)) && (k.d4 - k.d3) + (k.d5 - k.d6) == Dot(bc, bc)
  {
  }

  /** A point of the triangle relative to a vertex, as a combination of ab and ac. */
  lemma TrianglePointOffsets(a: Vec3, b: Vec3, c: Vec3, v: real, w: real)
    ensures var x, ab, ac := TrianglePoint(a, b, c, v, w), Sub(b, a), Sub(c, a);
            Sub(x, a) == Add(Scale(v, ab), Scale(w, ac)) &&
            Sub(x, b) == Add(Scale(v - 1.0, ab), Scale(w, ac)) &&
            Sub(x, c) == Add(Scale(v, ab), Scale(w - 1.0, ac))
  {
    TrianglePointMoved(a, b, c, v, w, 1.0, 0.0);
    TrianglePointMoved(a, b, c, v, w, 0.0, 1.0);
  }

  /** x minus the triangle point at (v0, w0), for x at (v, w), is (v - v0) ab + (w - w0) ac. */
  lemma TrianglePointMoved(a: Vec3, b: Vec3, c: Vec3, v: real, w: real, v0: real, w0: real)
    ensures Sub(TrianglePoint(a, b, c, v, w), TrianglePoint(a, b, c, v0, w0)) ==
            Add(Scale(v - v0, Sub(b, a)), Scale(w - w0, Sub(c, a)))
  {
    var ab, ac := Sub(b, a), Sub(c, a);
    var d := Sub(TrianglePoint(a, b, c, v, w), TrianglePoint(a, b, c, v0, w0));
    assert d.x == (v - v0) * ab.x + (w - w0) * ac.x;
    assert d.y == (v - v0) * ab.y + (w - w0) * ac.y;
    assert d.z == (v - v0) * ab.z + (w - w0) * ac.z;
  }

  /**
   * In the vertex region of a, a is the point of the triangle closest to p:
   * no point a + v ab + w ac with v, w >= 0 is nearer.
   */
  lemma VertexAIsClosest(p: Vec3, a: Vec3, b: Vec3, c: Vec3, v: real, w: real)
    requires RegionOf(DotsOf(p, a, b, c)) == VertexA
    requires v >= 0.0 && w >= 0.0
    ensures ClosestPtPointTriangle(p, a, b, c) == Some(a)
    ensures DistSq(p, a) <= DistSq(p, TrianglePoint(a, b, c, v, w))
  {
    hide *;
    VertexARegion(p, a, b, c);
    VertexANearest(p, a, b, c, v, w);
  }

  lemma VertexARegion(p: Vec3, a: Vec3, b: Vec3, c: Vec3)
    requires RegionOf(DotsOf(p, a, b, c)) == VertexA
    ensures ClosestPtPointTriangle(p, a, b, c) == Some(a)
  {
  }

  lemma VertexANearest(p: Vec3, a: Vec3, b: Vec3, c: Vec3, v: real, w: real)
    requires RegionOf(DotsOf(p, a, b, c)) == VertexA
    requires v >= 0.0 && w >= 0.0
    ensures DistSq(p, a) <= DistSq(p, TrianglePoint(a, b, c, v, w))
  {
    hide ClosestPtPointTriangle, TrianglePoint, DistSq, Add, Scale, Comb, Dot;
    var k, ab, ac := DotsOf(p, a, b, c), Sub(b, a), Sub(c, a);
    var x := TrianglePoint(a, b, c, v, w);
    TrianglePointOffsets(a, b, c, v, w);
    DotOfComb(ab, ac, v, w, Sub(p, a));
    DotSymmetric(Sub(p, a), Sub(x, a));
    assert Dot(Sub(p, a), Sub(x, a)) == Comb(v, k.d1, w, k.d2);
    CombNonPositive(v, k.d1, w, k.d2);
    ObtuseIsCloser(p, a, x);
  }

  /** In the vertex region of b, b is the point of the triangle closest to p. */
  lemma VertexBIsClosest(p: Vec3, a: Vec3, b: Vec3, c: Vec3, v: real, w: real)
    requires RegionOf(DotsOf(p, a, b, c)) == VertexB
    requires v >= 0.0 && w >= 0.0 && v + w <= 1.0
    ensures ClosestPtPointTriangle(p, a, b, c) == Some(b)
    ensures DistSq(p, b) <= DistSq(p, TrianglePoint(a, b, c, v, w))
  {
    hide *;
    VertexBRegion(p, a, b, c);
    VertexBNearest(p, a, b, c, v, w);
  }

  lemma VertexBRegion(p: Vec3, a: Vec3, b: Vec3, c: Vec3)
    requires RegionOf(DotsOf(p, a, b, c)) == VertexB
    ensures ClosestPtPointTriangle(p, a, b, c) == Some(b)
  {
  }

  lemma VertexBNearest(p: Vec3, a: Vec3, b: Vec3, c: Vec3, v: real, w: real)
    requires RegionOf(DotsOf(p, a, b, c)) == VertexB
    requires v >= 0.0 && w >= 0.0 && v + w <= 1.0
    ensures DistSq(p, b) <= DistSq(p, TrianglePoint(a, b, c, v, w))
  {
    hide ClosestPtPointTriangle, TrianglePoint, DistSq, Add, Scale, Comb, Dot;
    var k, ab, ac := DotsOf(p, a, b, c), Sub(b, a), Sub(c, a);
    var x := TrianglePoint(a, b, c, v, w);
    TrianglePointOffsets(a, b, c, v, w);
    DotOfComb(ab, ac, v - 1.0, w, Sub(p, b));
    DotSymmetric(Sub(p, b), Sub(x, b));
    assert Dot(Sub(p, b), Sub(x, b)) == Comb(v - 1.0, k.d3, w, k.d4);
    CornerCombNonPositive(v - 1.0, k.d3, w, k.d4);
    ObtuseIsCloser(p, b, x);
  }

  /** In the vertex region of c, c is the point of the triangle closest to p. */
  lemma VertexCIsClosest(p: Vec3, a: Vec3, b: Vec3, c: Vec3, v: real, w: real)
    requires RegionOf(DotsOf(p, a, b, c)) == VertexC
    requires v >= 0.0 && w >= 0.0 && v + w <= 1.0
    ensures ClosestPtPointTriangle(p, a, b, c) == Some(c)
    ensures DistSq(p, c) <= DistSq(p, TrianglePoint(a, b, c, v, w))
  {
    hide *;
    VertexCRegion(p, a, b, c);
    VertexCNearest(p, a, b, c, v, w);
  }

  lemma VertexCRegion(p: Vec3, a: Vec3, b: Vec3, c: Vec3)
    requires RegionOf(DotsOf(p, a, b, c)) == VertexC
    ensures ClosestPtPointTriangle(p, a, b, c) == Some(c)
  {
  }

  lemma VertexCNearest(p: Vec3, a: Vec3, b: Vec3, c: Vec3, v: real, w: real)
    requires RegionOf(DotsOf(p, a, b, c)) == VertexC
    requires v >= 0.0 && w >= 0.0 && v + w <= 1.0
    ensures DistSq(p, c) <= DistSq(p, TrianglePoint(a, b, c, v, w))
  {
    hide ClosestPtPointTriangle, TrianglePoint, DistSq, Add, Scale, Comb, Dot;
    var k, ab, ac := DotsOf(p, a, b, c), Sub(b, a), Sub(c, a);
    var x := TrianglePoint(a, b, c, v, w);
    TrianglePointOffsets(a, b, c, v, w);
    DotOfComb(ab, ac, v, w - 1.0, Sub(p, c));
    DotSymmetric(Sub(p, c), Sub(x, c));
    assert Dot(Sub(p, c), Sub(x, c)) == Comb(v, k.d5, w - 1.0, k.d6);
    CombSwapped(v, k.d5, w - 1.0, k.d6);
    CornerCombNonPositive(w - 1.0, k.d6, v, k.d5);
    ObtuseIsCloser(p, c, x);
  }

  lemma CombSwapped(v: real, x: real, w: real, y: real)
    ensures Comb(v, x, w, y) == Comb(w, y, v, x)
  {
  }

  lemma CombNonPositive(v: real, x: real, w: real, y: real)
    requires v >= 0.0 && w >= 0.0 && x <= 0.0 && y <= 0.0
    ensures Comb(v, x, w, y) <= 0.0
  {
    MulNonPositive(-v, x);
    MulNonPositive(-w, y);
  }

  /** (v - 1) x + w y <= 0 when v - 1 <= -w, w >= 0, x >= 0 and y <= x. */
  lemma CornerCombNonPositive(u: real, x: real, w: real, y: real)
    requires w >= 0.0 && u + w <= 0.0 && x >= 0.0 && y <= x
    ensures Comb(u, x, w, y) <= 0.0
  {
    MulNonNegative(w, x - y);
    MulNonNegative(-(u + w), x);
  }

  /** x - t len2. */
  function Along(x: real, t: real, len2: real): real {
    x - t * len2
  }

  /** (p - (s + t (e - s))) . (e - s) = (e - s) . (p - s) - t |e - s|^2. */
  lemma FootResidual(p: Vec3, s: Vec3, e: Vec3, t: real)
    ensures Dot(Sub(p, PointAt(s, e, t)), Sub(e, s)) ==
            Along(Dot(Sub(e, s), Sub(p, s)), t, Dot(Sub(e, s), Sub(e, s)))
  {
    var ed := Sub(e, s);
    assert Sub(p, PointAt(s, e, t)) == Sub(Sub(p, s), Scale(t, ed));
    DotOfDifference(Sub(p, s), Scale(t, ed), ed);
    assert Dot(Scale(t, ed), ed) == t * Dot(ed, ed);
    assert Dot(Sub(p, s), ed) == Dot(ed, Sub(p, s));
  }

  lemma AlongZero(x: real, y: real)
    requires y != 0.0
    ensures Along(x, x / y, y) == 0.0
  {
  }

  lemma DotScaledZero(u: Vec3, t: real, e: Vec3)
    requires Dot(u, e) == 0.0
    ensures Dot(u, Scale(t, e)) == 0.0
  {
    assert Dot(u, Scale(t, e)) == t * Dot(u, e);
  }

  /**
   * The foot s + (num / len2) (e - s) of p on the line through s and e,
   * with num = (e - s) . (p - s) and len2 = |e - s|^2: p minus the foot is
   * orthogonal to the line, and no point of the line is nearer to p.
   */
  lemma FootIsClosest(p: Vec3, s: Vec3, e: Vec3, num: real, len2: real, x: real)
    requires len2 != 0.0 && num == Dot(Sub(e, s), Sub(p, s)) && len2 == Dot(Sub(e, s), Sub(e, s))
    ensures Dot(Sub(p, PointAt(s, e, num / len2)), Sub(e, s)) == 0.0
    ensures DistSq(p, PointAt(s, e, num / len2)) <= DistSq(p, PointAt(s, e, x))
  {
    hide Dot, Along, DistSq;
    var t := num / len2;
    var q := PointAt(s, e, t);
    FootResidual(p, s, e, t);
    AlongZero(num, len2);
    assert Sub(q, PointAt(s, e, x)) == Scale(t - x, Sub(e, s));
    DotScaledZero(Sub(p, q), t - x, Sub(e, s));
    OrthogonalIsCloser(p, q, PointAt(s, e, x));
  }

  /**
   * In the edge region of ab, the result is the foot of p on the line
   * through a and b: orthogonal to the edge, and nearer than any point of
   * that line.
   */
  lemma EdgeABIsClosest(p: Vec3, a: Vec3, b: Vec3, c: Vec3, x: real)
    requires RegionOf(DotsOf(p, a, b, c)) == EdgeAB && ClosestPtPointTriangle(p, a, b, c).Some?
    ensures var q := ClosestPtPointTriangle(p, a, b, c).value;
            Dot(Sub(p, q), Sub(b, a)) == 0.0 && DistSq(p, q) <= DistSq(p, PointAt(a, b, x))
  {
    var k := DotsOf(p, a, b, c);
    DotsRelations(p, a, b, c);
    FootIsClosest(p, a, b, k.d1, k.d1 - k.d3, x);
  }

  /** In the edge region of ac, the result is the foot of p on the line through a and c. */
  lemma EdgeACIsClosest(p: Vec3, a: Vec3, b: Vec3, c: Vec3, x: real)
    requires RegionOf(DotsOf(p, a, b, c)) == EdgeAC && ClosestPtPointTriangle(p, a, b, c).Some?
    ensures var q := ClosestPtPointTriangle(p, a, b, c).value;
            Dot(Sub(p, q), Sub(c, a)) == 0.0 && DistSq(p, q) <= DistSq(p, PointAt(a, c, x))
  {
    var k := DotsOf(p, a, b, c);
    DotsRelations(p, a, b, c);
    FootIsClosest(p, a, c, k.d2, k.d2 - k.d6, x);
  }

  /** In the edge region of bc, the result is the foot of p on the line through b and c. */
  lemma EdgeBCIsClosest(p: Vec3, a: Vec3, b: Vec3, c: Vec3, x: real)
    requires RegionOf(DotsOf(p, a, b, c)) == EdgeBC && ClosestPtPointTriangle(p, a, b, c).Some?
    ensures var q := ClosestPtPointTriangle(p, a, b, c).value;
            Dot(Sub(p, q), Sub(c, b)) == 0.0 && DistSq(p, q) <= DistSq(p, PointAt(b, c, x))
  {
    var k := DotsOf(p, a, b, c);
    EdgeBCDots(p, a, b, c);
    FootIsClosest(p, b, c, k.d4 - k.d3, (k.d4 - k.d3) + (k.d5 - k.d6), x);
  }

  /** (p - (s + t (e - s))) . o = o . (p - s) - t ((e - s) . o). */
  lemma FootAgainst(p: Vec3, s: Vec3, e: Vec3, t: real, o: Vec3)
    ensures Dot(Sub(p, PointAt(s, e, t)), o) == Dot(o, Sub(p, s)) - t * Dot(Sub(e, s), o)
  {
    var ed := Sub(e, s);
    assert Sub(p, PointAt(s, e, t)) == Sub(Sub(p, s), Scale(t, ed));
    DotOfDifference(Sub(p, s), Scale(t, ed), o);
    assert Dot(Scale(t, ed), o) == t * Dot(ed, o);
    DotSymmetric(Sub(p, s), o);
  }

  /** x - (y / den) m <= 0 when den > 0 and den x - m y <= 0. */
  lemma RatioResidual(x: real, y: real, den: real, m: real)
    requires den > 0.0 && den * x - m * y <= 0.0
    ensures x - (y / den) * m <= 0.0
  {
    var r := x - (y / den) * m;
    assert den * r == den * x - m * y;
    if r > 0.0 {
      MulPositive(den, r);
    }
  }

  /**
   * If p - q is orthogonal to d and makes an obtuse angle with o, then q is
   * at least as close to p as every x = q + alpha d + beta o with beta >= 0.
   */
  lemma OffEdgeIsCloser(p: Vec3, q: Vec3, x: Vec3, d: Vec3, o: Vec3, alpha: real, beta: real)
    requires Sub(x, q) == Add(Scale(alpha, d), Scale(beta, o))
    requires Dot(Sub(p, q), d) == 0.0 && Dot(Sub(p, q), o) <= 0.0 && beta >= 0.0
    ensures DistSq(p, q) <= DistSq(p, x)
  {
    var u := Sub(p, q);
    DotOfComb(d, o, alpha, beta, u);
    DotSymmetric(u, d);
    DotSymmetric(u, o);
    DotSymmetric(u, Sub(x, q));
    MulNonPositive(-beta, Dot(u, o));
    ObtuseIsCloser(p, q, x);
  }

  /** The facts of the edge region of ab that the nearness argument uses. */
  lemma EdgeABFacts(p: Vec3, a: Vec3, b: Vec3, c: Vec3)
    requires RegionOf(DotsOf(p, a, b, c)) == EdgeAB && ClosestPtPointTriangle(p, a, b, c).Some?
    ensures var k, ab, ac := DotsOf(p, a, b, c), Sub(b, a), Sub(c, a);
            var q := PointAt(a, b, k.d1 / (k.d1 - k.d3));
            Dot(ab, ab) > 0.0 && k.d1 - k.d3 == Dot(ab, ab) && Dot(ac, Sub(p, a)) == k.d2 &&
            ClosestPtPointTriangle(p, a, b, c).value == q && Dot(Sub(p, q), ab) == 0.0 &&
            Dot(ab, ab) * k.d2 - Dot(ab, ac) * k.d1 <= 0.0
  {
    var k, ab, ac := DotsOf(p, a, b, c), Sub(b, a), Sub(c, a);
    DotsRelations(p, a, b, c);
    WeightsFromA(k, Dot(ab, ab), Dot(ab, ac), Dot(ac, ac));
    EdgeABIsClosest(p, a, b, c, 0.0);
    LengthSqNonNegative(ab);
  }

  /** In the edge region of ab, no point of the triangle is nearer to p than the result. */
  lemma EdgeABNearest(p: Vec3, a: Vec3, b: Vec3, c: Vec3, v: real, w: real)
    requires RegionOf(DotsOf(p, a, b, c)) == EdgeAB && ClosestPtPointTriangle(p, a, b, c).Some?
    requires v >= 0.0 && w >= 0.0
    ensures DistSq(p, ClosestPtPointTriangle(p, a, b, c).value) <= DistSq(p, TrianglePoint(a, b, c, v, w))
  {
    hide *;
    var k, ab, ac := DotsOf(p, a, b, c), Sub(b, a), Sub(c, a);
    EdgeABFacts(p, a, b, c);
    var t := k.d1 / (k.d1 - k.d3);
    var q := PointAt(a, b, t);
    FootAgainst(p, a, b, t, ac);
    RatioResidual(k.d2, k.d1, Dot(ab, ab), Dot(ab, ac));
    EdgePointsInTriangle(a, b, c, t);
    TrianglePointMoved(a, b, c, v, w, t, 0.0);
    OffEdgeIsCloser(p, q, TrianglePoint(a, b, c, v, w), ab, ac, v - t, w);
  }

  /** The facts of the edge region of ac that the nearness argument uses. */
  lemma EdgeACFacts(p: Vec3, a: Vec3, b: Vec3, c: Vec3)
    requires RegionOf(DotsOf(p, a, b, c)) == EdgeAC && ClosestPtPointTriangle(p, a, b, c).Some?
    ensures var k, ab, ac := DotsOf(p, a, b, c), Sub(b, a), Sub(c, a);
            var q := PointAt(a, c, k.d2 / (k.d2 - k.d6));
            Dot(ac, ac) > 0.0 && k.d2 - k.d6 == Dot(ac, ac) && Dot(ab, Sub(p, a)) == k.d1 &&
            Dot(ac, ab) == Dot(ab, ac) &&
            ClosestPtPointTriangle(p, a, b, c).value == q && Dot(Sub(p, q), ac) == 0.0 &&
            Dot(ac, ac) * k.d1 - Dot(ab, ac) * k.d2 <= 0.0
  {
    var k, ab, ac := DotsOf(p, a, b, c), Sub(b, a), Sub(c, a);
    DotsRelations(p, a, b, c);
    WeightsFromA(k, Dot(ab, ab), Dot(ab, ac), Dot(ac, ac));
    EdgeACIsClosest(p, a, b, c, 0.0);
    LengthSqNonNegative(ac);
    DotSymmetric(ac, ab);
  }

  /** In the edge region of ac, no point of the triangle is nearer to p than the result. */
  lemma EdgeACNearest(p: Vec3, a: Vec3, b: Vec3, c: Vec3, v: real, w: real)
    requires RegionOf(DotsOf(p, a, b, c)) == EdgeAC && ClosestPtPointTriangle(p, a, b, c).Some?
    requires v >= 0.0 && w >= 0.0
    ensures DistSq(p, ClosestPtPointTriangle(p, a, b, c).value) <= DistSq(p, TrianglePoint(a, b, c, v, w))
  {
    hide *;
    var k, ab, ac := DotsOf(p, a, b, c), Sub(b, a), Sub(c, a);
    EdgeACFacts(p, a, b, c);
    var t := k.d2 / (k.d2 - k.d6);
    var q := PointAt(a, c, t);
    FootAgainst(p, a, c, t, ab);
    RatioResidual(k.d1, k.d2, Dot(ac, ac), Dot(ab, ac));
    EdgePointsInTriangle(a, b, c, t);
    TrianglePointMoved(a, b, c, v, w, 0.0, t);
    AddSwapped(Scale(v - 0.0, ab), Scale(w - t, ac));
    OffEdgeIsCloser(p, q, TrianglePoint(a, b, c, v, w), ac, ab, w - t, v);
  }

  lemma AddSwapped(x: Vec3, y: Vec3)
    ensures Add(x, y) == Add(y, x)
  {
  }

  /** The edge-BC products seen from b: (a - b) . (p - b) = -d3 and (c - b) . (a - b) = |ab|^2 - ab . ac. */
  lemma EdgeBCFromB(p: Vec3, a: Vec3, b: Vec3, c: Vec3)
    ensures var k, ab, ac := DotsOf(p, a, b, c), Sub(b, a), Sub(c, a);
            Dot(Sub(a, b), Sub(p, b)) == -k.d3 && Dot(Sub(c, b), Sub(a, b)) == Dot(ab, ab) - Dot(ab, ac)
  {
  }

  /** Moving from the point of bc at t, as a combination of c - b and a - b. */
  lemma FromEdgeBC(a: Vec3, b: Vec3, c: Vec3, v: real, w: real, t: real)
    ensures Sub(TrianglePoint(a, b, c, v, w), TrianglePoint(a, b, c, 1.0 - t, t)) ==
            Add(Scale(w - t, Sub(c, b)), Scale(1.0 - v - w, Sub(a, b)))
  {
    TrianglePointMoved(a, b, c, v, w, 1.0 - t, t);
    Rebased(a, b, c, v - (1.0 - t), w - t, 1.0 - v - w);
  }

  /** k1 (b - a) + k2 (c - a), rewritten from b, when k1 + k2 + k3 = 0. */
  lemma Rebased(a: Vec3, b: Vec3, c: Vec3, k1: real, k2: real, k3: real)
    requires k1 + k2 + k3 == 0.0
    ensures Add(Scale(k1, Sub(b, a)), Scale(k2, Sub(c, a))) == Add(Scale(k2, Sub(c, b)), Scale(k3, Sub(a, b)))
  {
    RebasedAt(a.x, b.x, c.x, k1, k2, k3);
    RebasedAt(a.y, b.y, c.y, k1, k2, k3);
    RebasedAt(a.z, b.z, c.z, k1, k2, k3);
  }

  /** One coordinate of Rebased. */
  lemma RebasedAt(a: real, b: real, c: real, k1: real, k2: real, k3: real)
    requires k1 + k2 + k3 == 0.0
    ensures k1 * (b - a) + k2 * (c - a) == k2 * (c - b) + k3 * (a - b)
  {
    assert k3 * (a - b) == (k1 + k2) * (b - a);
  }

  /** The facts of the edge region of bc that the nearness argument uses. */
  lemma EdgeBCFacts(p: Vec3, a: Vec3, b: Vec3, c: Vec3)
    requires RegionOf(DotsOf(p, a, b, c)) == EdgeBC && ClosestPtPointTriangle(p, a, b, c).Some?
    ensures var k, ab, ac, bc := DotsOf(p, a, b, c), Sub(b, a), Sub(c, a), Sub(c, b);
            var h := (k.d4 - k.d3) + (k.d5 - k.d6);
            var q := PointAt(b, c, (k.d4 - k.d3) / h);
            h > 0.0 && Dot(Sub(a, b), Sub(p, b)) == -k.d3 && Dot(bc, Sub(a, b)) == Dot(ab, ab) - Dot(ab, ac) &&
            ClosestPtPointTriangle(p, a, b, c).value == q && Dot(Sub(p, q), bc) == 0.0 &&
            h * -k.d3 - (Dot(ab, ab) - Dot(ab, ac)) * (k.d4 - k.d3) <= 0.0
  {
    var k, ab, ac, bc := DotsOf(p, a, b, c), Sub(b, a), Sub(c, a), Sub(c, b);
    DotsRelations(p, a, b, c);
    WeightsFromB(k, Dot(ab, ab), Dot(ab, ac), Dot(ac, ac));
    EdgeBCDots(p, a, b, c);
    EdgeBCFromB(p, a, b, c);
    EdgeBCIsClosest(p, a, b, c, 0.0);
    LengthSqNonNegative(bc);
  }

  /** In the edge region of bc, no point of the triangle is nearer to p than the result. */
  lemma EdgeBCNearest(p: Vec3, a: Vec3, b: Vec3, c: Vec3, v: real, w: real)
    requires RegionOf(DotsOf(p, a, b, c)) == EdgeBC && ClosestPtPointTriangle(p, a, b, c).Some?
    requires v + w <= 1.0
    ensures DistSq(p, ClosestPtPointTriangle(p, a, b, c).value) <= DistSq(p, TrianglePoint(a, b, c, v, w))
  {
    hide *;
    var k, ab, ac, bc := DotsOf(p, a, b, c), Sub(b, a), Sub(c, a), Sub(c, b);
    EdgeBCFacts(p, a, b, c);
    var h := (k.d4 - k.d3) + (k.d5 - k.d6);
    var t := (k.d4 - k.d3) / h;
    var q := PointAt(b, c, t);
    FootAgainst(p, b, c, t, Sub(a, b));
    RatioResidual(-k.d3, k.d4 - k.d3, h, Dot(ab, ab) - Dot(ab, ac));
    EdgePointsInTriangle(a, b, c, t);
    FromEdgeBC(a, b, c, v, w, t);
    OffEdgeIsCloser(p, q, TrianglePoint(a, b, c, v, w), bc, Sub(a, b), w - t, 1.0 - v - w);
  }

  /** The points of the edges, as points of the triangle. */
  lemma EdgePointsInTriangle(a: Vec3, b: Vec3, c: Vec3, t: real)
    ensures PointAt(a, b, t) == TrianglePoint(a, b, c, t, 0.0)
    ensures PointAt(a, c, t) == TrianglePoint(a, b, c, 0.0, t)
    ensures PointAt(b, c, t) == TrianglePoint(a, b, c, 1.0 - t, t)
  {
    TrianglePointMoved(a, b, c, 1.0 - t, t, 1.0, 0.0);
    assert b == TrianglePoint(a, b, c, 1.0, 0.0);
    assert Scale(t, Sub(c, b)) == Add(Scale(-t, Sub(b, a)), Scale(t, Sub(c, a)));
  }

  lemma UnitRatio(x: real, y: real)
    requires 0.0 <= x <= y && y != 0.0
    ensures 0.0 <= x / y <= 1.0
  {
    RatioBounds(x, y, x / y);
  }

  /**
   * The result is a point of the triangle: a convex combination
   * a + v ab + w ac with v, w >= 0 and v + w <= 1, in every region.
   */
  lemma ClosestPtPointTriangleOnTriangle(p: Vec3, a: Vec3, b: Vec3, c: Vec3)
    requires ClosestPtPointTriangle(p, a, b, c).Some?
    ensures exists v: real, w: real :: v >= 0.0 && w >= 0.0 && v + w <= 1.0 &&
              ClosestPtPointTriangle(p, a, b, c).value == TrianglePoint(a, b, c, v, w)
  {
    var k := DotsOf(p, a, b, c);
    var q := ClosestPtPointTriangle(p, a, b, c).value;
    match RegionOf(k)
    case VertexA =>
      assert q == TrianglePoint(a, b, c, 0.0, 0.0);
    case VertexB =>
      assert q == TrianglePoint(a, b, c, 1.0, 0.0);
    case VertexC =>
      assert q == TrianglePoint(a, b, c, 0.0, 1.0);
    case EdgeAB =>
      var t := k.d1 / (k.d1 - k.d3);
      UnitRatio(k.d1, k.d1 - k.d3);
      EdgePointsInTriangle(a, b, c, t);
      assert q == TrianglePoint(a, b, c, t, 0.0);
    case EdgeAC =>
      var t := k.d2 / (k.d2 - k.d6);
      UnitRatio(k.d2, k.d2 - k.d6);
      EdgePointsInTriangle(a, b, c, t);
      assert q == TrianglePoint(a, b, c, 0.0, t);
    case EdgeBC =>
      var t := (k.d4 - k.d3) / ((k.d4 - k.d3) + (k.d5 - k.d6));
      UnitRatio(k.d4 - k.d3, (k.d4 - k.d3) + (k.d5 - k.d6));
      EdgePointsInTriangle(a, b, c, t);
      assert q == TrianglePoint(a, b, c, 1.0 - t, t);
    case Face =>
      FaceHypothesesHold(p, a, b, c);
      var ab, ac := Sub(b, a), Sub(c, a);
      FaceWeightsInTriangle(k, Dot(ab, ab), Dot(ab, ac), Dot(ac, ac));
      assert q == TrianglePoint(a, b, c, FaceV(k), FaceW(k));
  }

  /**
   * The result is the point of the triangle nearest to p: no point
   * a + v ab + w ac with v, w >= 0 and v + w <= 1 is nearer.
   */
  lemma ClosestPtPointTriangleIsNearest(p: Vec3, a: Vec3, b: Vec3, c: Vec3, v: real, w: real)
    requires ClosestPtPointTriangle(p, a, b, c).Some?
    requires v >= 0.0 && w >= 0.0 && v + w <= 1.0
    ensures DistSq(p, ClosestPtPointTriangle(p, a, b, c).value) <= DistSq(p, TrianglePoint(a, b, c, v, w))
  {
    match RegionOf(DotsOf(p, a, b, c))
    case VertexA => VertexAIsClosest(p, a, b, c, v, w);
    case VertexB => VertexBIsClosest(p, a, b, c, v, w);
    case VertexC => VertexCIsClosest(p, a, b, c, v, w);
    case EdgeAB => EdgeABNearest(p, a, b, c, v, w);
    case EdgeAC => EdgeACNearest(p, a, b, c, v, w);
    case EdgeBC => EdgeBCNearest(p, a, b, c, v, w);
    case Face => FaceIsClosest(p, a, b, c, v, w);
  }

  /** The face weights are Cramer's solution for the edge products. */
  lemma FaceWeightsSolve(k: RegionDots, aa: real, ab: real, cc: real)
    requires k.d3 == k.d1 - aa && k.d4 == k.d2 - ab && k.d5 == k.d1 - ab && k.d6 == k.d2 - cc
    requires VA(k) + VB(k) + VC(k) != 0.0
    ensures GramOf(aa, ab, cc) == VA(k) + VB(k) + VC(k)
    ensures FaceV(k) == BaryV(aa, ab, cc, k.d1, k.d2) && FaceW(k) == BaryW(aa, ab, cc, k.d1, k.d2)
  {
    assert VB(k) == cc * k.d1 - ab * k.d2;
    assert VC(k) == aa * k.d2 - ab * k.d1;
    assert VA(k) + VB(k) + VC(k) == aa * cc - ab * ab;
  }

  /**
   * The corner argument behind the region tests. At a vertex X with edges
   * e1 = Y - X and e2 = Z - X (a11 = |e1|^2, a12 = e1 . e2, a22 = |e2|^2 and
   * x1 = e1 . (p - X), x2 = e2 . (p - X)), a point beyond the edge XY (the
   * Cramer numerator of its e2 weight is <= 0), behind X along XY and ahead
   * of X along XZ passes the edge test of XZ or the vertex test of Z.
   */
  lemma BeyondEdgeCorner(a11: real, a12: real, a22: real, x1: real, x2: real)
    requires a11 > 0.0 && GramOf(a11, a12, a22) > 0.0
    requires a11 * x2 - a12 * x1 <= 0.0 && x1 < 0.0 && x2 > 0.0
    ensures (a22 * x1 - a12 * x2 <= 0.0 && x2 - a22 <= 0.0) ||
            (x2 - a22 >= 0.0 && x1 - a12 <= x2 - a22)
  {
    MulPositive(a11, x2);
    assert a12 < 0.0 by {
      if a12 >= 0.0 {
        MulNonPositive(x1, -a12);
      }
    }
    BeyondEdgeWeight(a11, a12, a22, x1, x2);
    BeyondEdgeFar(a11, a12, a22, x1, x2);
  }

  /** Under the corner hypotheses, the Cramer numerator of the e1 weight is negative too. */
  lemma BeyondEdgeWeight(a11: real, a12: real, a22: real, x1: real, x2: real)
    requires a11 > 0.0 && GramOf(a11, a12, a22) > 0.0 && a12 < 0.0
    requires a11 * x2 - a12 * x1 <= 0.0 && x1 < 0.0
    ensures a22 * x1 - a12 * x2 < 0.0
  {
    var s := a22 * x1 - a12 * x2;
    // -a12 > 0 scales a11 x2 <= a12 x1 into -a12 a11 x2 <= -a12 a12 x1.
    assert (-a12) * (a12 * x1 - a11 * x2) >= 0.0 by {
      MulNonNegative(-a12, a12 * x1 - a11 * x2);
    }
    assert a11 * s <= GramOf(a11, a12, a22) * x1;
    assert GramOf(a11, a12, a22) * x1 < 0.0 by {
      MulPositive(GramOf(a11, a12, a22), -x1);
    }
    if s >= 0.0 {
      MulNonNegative(a11, s);
    }
  }

  /** Under the corner hypotheses, p is not both beyond Z along XZ and outside Z's vertex test. */
  lemma BeyondEdgeFar(a11: real, a12: real, a22: real, x1: real, x2: real)
    requires a11 > 0.0 && GramOf(a11, a12, a22) > 0.0 && a12 < 0.0
    requires a11 * x2 - a12 * x1 <= 0.0
    ensures x2 - a22 <= 0.0 || x1 - a12 <= x2 - a22
  {
    if x2 - a22 > 0.0 && x1 - a12 > x2 - a22 {
      var m := x1 - (a12 + x2 - a22);
      // a12 < 0 and x1 > a12 + (x2 - a22), so a12 x1 < a12 (a12 + x2 - a22).
      assert a12 * m < 0.0 by {
        MulPositive(-a12, m);
      }
      assert a11 * x2 < a12 * a12 + a12 * (x2 - a22);
      MulPositive(x2 - a22, a11 - a12);
    }
  }

  /** |c - b|^2 |b - a|^2 - ((c - b) . (a - b))^2 is the same Gram determinant, written from vertex b. */
  lemma GramFromSecondVertex(aa: real, e: real, cc: real)
    ensures GramOf(aa, aa - e, aa - 2.0 * e + cc) == GramOf(aa, e, cc)
    ensures GramOf(cc, cc - e, aa - 2.0 * e + cc) == GramOf(aa, e, cc)
  {
  }

  /** The squared lengths of the three edges are positive when the Gram determinant is. */
  lemma EdgesOfNonDegenerate(aa: real, e: real, cc: real)
    requires aa >= 0.0 && cc >= 0.0 && GramOf(aa, e, cc) > 0.0
    ensures aa > 0.0 && cc > 0.0 && aa - 2.0 * e + cc > 0.0
  {
    var h := aa - 2.0 * e + cc;
    GramFromSecondVertex(aa, e, cc);
    if h <= 0.0 {
      MulNonPositive(-aa, h);
    }
  }

  /** How d3..d6 follow from d1, d2 and the edge products aa = |ab|^2, e = ab . ac, cc = |ac|^2. */
  predicate Related(k: RegionDots, aa: real, e: real, cc: real) {
    k.d3 == k.d1 - aa && k.d4 == k.d2 - e && k.d5 == k.d1 - e && k.d6 == k.d2 - cc
  }

  /** vb and vc as Cramer numerators in the frame of vertex a. */
  lemma WeightsFromA(k: RegionDots, aa: real, e: real, cc: real)
    requires Related(k, aa, e, cc)
    ensures VC(k) == aa * k.d2 - e * k.d1 && VB(k) == cc * k.d1 - e * k.d2
  {
  }

  /** vc and va as Cramer numerators in the frame of vertex b (edges b - a and c - b). */
  lemma WeightsFromB(k: RegionDots, aa: real, e: real, cc: real)
    requires Related(k, aa, e, cc)
    ensures aa * (k.d4 - k.d3) - (aa - e) * -k.d3 == VC(k)
    ensures (aa - 2.0 * e + cc) * -k.d3 - (aa - e) * (k.d4 - k.d3) == VA(k)
  {
  }

  /** vb and va as Cramer numerators in the frame of vertex c (edges c - a and c - b). */
  lemma WeightsFromC(k: RegionDots, aa: real, e: real, cc: real)
    requires Related(k, aa, e, cc)
    ensures cc * (k.d5 - k.d6) - (cc - e) * -k.d6 == VB(k)
    ensures (aa - 2.0 * e + cc) * -k.d6 - (cc - e) * (k.d5 - k.d6) == VA(k)
  {
  }

  /** The facts of the face region, with the triangle non-degenerate. */
  predicate FaceHypotheses(k: RegionDots, aa: real, e: real, cc: real) {
    Related(k, aa, e, cc) &&
    aa > 0.0 && cc > 0.0 && aa - 2.0 * e + cc > 0.0 && GramOf(aa, e, cc) > 0.0 &&
    RegionOf(k) == Face
  }

  /** In the face region p is strictly on the inner side of ab: vc > 0. */
  lemma FaceVCPositive(k: RegionDots, aa: real, e: real, cc: real)
    requires FaceHypotheses(k, aa, e, cc)
    ensures VC(k) > 0.0
  {
    GramFromSecondVertex(aa, e, cc);
    WeightsFromA(k, aa, e, cc);
    WeightsFromB(k, aa, e, cc);
    hide VA, VB, VC, GramOf;
    if VC(k) <= 0.0 {
      if k.d1 < 0.0 {
        BeyondEdgeCorner(aa, e, cc, k.d1, k.d2);
      } else {
        BeyondEdgeCorner(aa, aa - e, aa - 2.0 * e + cc, -k.d3, k.d4 - k.d3);
      }
    }
  }

  /** In the face region p is strictly on the inner side of ac: vb > 0. */
  lemma FaceVBPositive(k: RegionDots, aa: real, e: real, cc: real)
    requires FaceHypotheses(k, aa, e, cc)
    ensures VB(k) > 0.0
  {
    GramFromSecondVertex(aa, e, cc);
    WeightsFromA(k, aa, e, cc);
    WeightsFromC(k, aa, e, cc);
    hide VA, VB, VC, GramOf;
    if VB(k) <= 0.0 {
      if k.d2 < 0.0 {
        BeyondEdgeCorner(cc, e, aa, k.d2, k.d1);
      } else {
        BeyondEdgeCorner(cc, cc - e, aa - 2.0 * e + cc, -k.d6, k.d5 - k.d6);
      }
    }
  }

  /** In the face region p is strictly on the inner side of bc: va > 0. */
  lemma FaceVAPositive(k: RegionDots, aa: real, e: real, cc: real)
    requires FaceHypotheses(k, aa, e, cc)
    ensures VA(k) > 0.0
  {
    GramFromSecondVertex(aa, e, cc);
    WeightsFromB(k, aa, e, cc);
    WeightsFromC(k, aa, e, cc);
    hide VA, VB, VC, GramOf;
    if VA(k) <= 0.0 {
      if k.d4 - k.d3 < 0.0 {
        BeyondEdgeCorner(aa - 2.0 * e + cc, aa - e, aa, k.d4 - k.d3, -k.d3);
      } else {
        BeyondEdgeCorner(aa - 2.0 * e + cc, cc - e, cc, k.d5 - k.d6, -k.d6);
      }
    }
  }

  /** In the face region the weights va, vb, vc are positive, so the face weights lie in the triangle. */
  lemma FaceWeightsInTriangle(k: RegionDots, aa: real, e: real, cc: real)
    requires FaceHypotheses(k, aa, e, cc)
    ensures VA(k) + VB(k) + VC(k) > 0.0
    ensures FaceV(k) > 0.0 && FaceW(k) > 0.0 && FaceV(k) + FaceW(k) < 1.0
  {
    FaceVAPositive(k, aa, e, cc);
    FaceVBPositive(k, aa, e, cc);
    FaceVCPositive(k, aa, e, cc);
    var s := VA(k) + VB(k) + VC(k);
    var r := 1.0 / s;
    assert r > 0.0;
    MulPositive(VB(k), r);
    MulPositive(VC(k), r);
    MulPositive(VA(k), r);
    assert VA(k) * r + VB(k) * r + VC(k) * r == s * r == 1.0;
  }

  /** In the face region with a result, the edge products meet the face hypotheses. */
  lemma FaceHypothesesHold(p: Vec3, a: Vec3, b: Vec3, c: Vec3)
    requires RegionOf(DotsOf(p, a, b, c)) == Face && ClosestPtPointTriangle(p, a, b, c).Some?
    ensures var ab, ac := Sub(b, a), Sub(c, a);
            FaceHypotheses(DotsOf(p, a, b, c), Dot(ab, ab), Dot(ab, ac), Dot(ac, ac))
  {
    var k, ab, ac := DotsOf(p, a, b, c), Sub(b, a), Sub(c, a);
    var aa, e, cc := Dot(ab, ab), Dot(ab, ac), Dot(ac, ac);
    DotsRelations(p, a, b, c);
    FaceWeightsSolve(k, aa, e, cc);
    Lagrange(ab, ac);
    LengthSqNonNegative(Cross(ab, ac));
    LengthSqNonNegative(ab);
    LengthSqNonNegative(ac);
    EdgesOfNonDegenerate(aa, e, cc);
  }

  /**
   * In the face region, the result is the projection of p onto the
   * triangle's plane at p's barycentric coordinates, and no point of that
   * plane is nearer to p.
   */
  lemma FaceIsClosest(p: Vec3, a: Vec3, b: Vec3, c: Vec3, v: real, w: real)
    requires RegionOf(DotsOf(p, a, b, c)) == Face && ClosestPtPointTriangle(p, a, b, c).Some?
    ensures Gram(a, b, c) != 0.0
    ensures var q, r := ClosestPtPointTriangle(p, a, b, c).value, Barycentric(p, a, b, c).value;
            q == TrianglePoint(a, b, c, r.y, r.z) &&
            DistSq(p, q) <= DistSq(p, TrianglePoint(a, b, c, v, w))
  {
    var k, ab, ac := DotsOf(p, a, b, c), Sub(b, a), Sub(c, a);
    DotsRelations(p, a, b, c);
    FaceWeightsSolve(k, Dot(ab, ab), Dot(ab, ac), Dot(ac, ac));
    assert Dot(Sub(p, a), ab) == k.d1 && Dot(Sub(p, a), ac) == k.d2;
    var r := Barycentric(p, a, b, c).value;
    var q := TrianglePoint(a, b, c, r.y, r.z);
    BarycentricProjects(p, a, b, c);
    PlaneOfTriangleIsOrthogonal(p, q, a, b, c, r.y, r.z, v, w);
    OrthogonalIsCloser(p, q, TrianglePoint(a, b, c, v, w));
  }

  /** If p - q is orthogonal to both edges, it is orthogonal to q - x for every x of the plane. */
  lemma PlaneOfTriangleIsOrthogonal(p: Vec3, q: Vec3, a: Vec3, b: Vec3, c: Vec3, v0: real, w0: real, v: real, w: real)
    requires q == TrianglePoint(a, b, c, v0, w0)
    requires Dot(Sub(p, q), Sub(b, a)) == 0.0 && Dot(Sub(p, q), Sub(c, a)) == 0.0
    ensures Dot(Sub(p, q), Sub(q, TrianglePoint(a, b, c, v, w))) == 0.0
  {
    var ab, ac := Sub(b, a), Sub(c, a);
    TrianglePointMoved(a, b, c, v0, w0, v, w);
    DotOfComb(ab, ac, v0 - v, w0 - w, Sub(p, q));
    assert Dot(ab, Sub(p, q)) == 0.0 && Dot(ac, Sub(p, q)) == 0.0;
    assert Dot(Sub(p, q), Add(Scale(v0 - v, ab), Scale(w0 - w, ac))) ==
           Dot(Add(Scale(v0 - v, ab), Scale(w0 - w, ac)), Sub(p, q));
  }

  // ---------------------------------------------------------------------
  // Segment and triangle
  // ---------------------------------------------------------------------

  /** The verdict of isSegmentIntersectingTriangle and the value its out-parameter c ends with. */
  datatype Hit = Hit(hit: bool, c: Vec3)

  /**
   * isSegmentIntersectingTriangle, with c0 the value c holds on entry: a
   * segment shorter than epsilon is the point start; otherwise the plane
   * parameter t = ((a - start) . n) / ((end - start) . n) must lie in [0, 1]
   * and the point start + t (end - start) must be within the triangle. When
   * (end - start) . n = 0 the engine divides by zero. For a segment parallel
   * to the plane and off it, t is infinite, the answer is false and c is left
   * as it was, as here. For a segment in the plane, or a triangle with n = 0,
   * t is 0/0 = NaN: the engine answers false but overwrites c with NaN, which
   * the model, having no NaN, leaves as c0.
   */
  function SegmentTriangleHit(c0: Vec3, start: Vec3, end: Vec3, a: Vec3, b: Vec3, c: Vec3): Hit {
    var n := Normal(a, b, c);
    var lVec := Sub(end, start);
    if Dot(lVec, lVec) < Epsilon then Hit(IsPointWithinTriangle(start, a, b, c), start)
    else if Dot(lVec, n) == 0.0 then Hit(false, c0)
    else
      var t := Dot(Sub(a, start), n) / Dot(lVec, n);
      if t < 0.0 || t > 1.0 then Hit(false, c0)
      else
        var q := Add(Scale(t, lVec), start);
        Hit(IsPointWithinTriangle(q, a, b, c), q)
  }

  /** The parameter of the segment where it meets the triangle's plane. */
  function PlaneParam(start: Vec3, end: Vec3, a: Vec3, b: Vec3, c: Vec3): real
    requires Dot(Sub(end, start), Normal(a, b, c)) != 0.0
  {
    Dot(Sub(a, start), Normal(a, b, c)) / Dot(Sub(end, start), Normal(a, b, c))
  }

  /**
   * A hit of a segment longer than epsilon is the point of the segment at
   * a parameter in [0, 1], lies on the triangle's plane n . x = n . a, and
   * is within the triangle.
   */
  lemma SegmentTriangleHitOnSegmentAndPlane(c0: Vec3, start: Vec3, end: Vec3, a: Vec3, b: Vec3, c: Vec3)
    requires Dot(Sub(end, start), Sub(end, start)) >= Epsilon
    requires SegmentTriangleHit(c0, start, end, a, b, c).hit
    ensures Dot(Sub(end, start), Normal(a, b, c)) != 0.0
    ensures var t, q := PlaneParam(start, end, a, b, c), SegmentTriangleHit(c0, start, end, a, b, c).c;
            0.0 <= t <= 1.0 && q == PointAt(start, end, t) &&
            Dot(q, Normal(a, b, c)) == Dot(a, Normal(a, b, c)) &&
            IsPointWithinTriangle(q, a, b, c)
  {
    var n, lVec := Normal(a, b, c), Sub(end, start);
    var t := PlaneParam(start, end, a, b, c);
    assert Add(Scale(t, lVec), start) == PointAt(start, end, t);
    DotOfLerp(start, end, t, n);
    assert Dot(lVec, n) == Dot(end, n) - Dot(start, n);
    assert Dot(Sub(a, start), n) == Dot(a, n) - Dot(start, n);
    LerpReaches(Dot(start, n), Dot(end, n), Dot(a, n), Dot(Sub(a, start), n), Dot(lVec, n), t);
  }

  lemma LerpReaches(x1: real, x2: real, y: real, num: real, den: real, t: real)
    requires den == x2 - x1 && num == y - x1 && den != 0.0 && t == num / den
    ensures Lerp(x1, x2, t) == y
  {
    assert t * den == num;
  }

  /** A short segment hits exactly when its start is within the triangle, and c becomes start. */
  lemma SegmentTriangleHitShort(c0: Vec3, start: Vec3, end: Vec3, a: Vec3, b: Vec3, c: Vec3)
    requires Dot(Sub(end, start), Sub(end, start)) < Epsilon
    ensures SegmentTriangleHit(c0, start, end, a, b, c) == Hit(IsPointWithinTriangle(start, a, b, c), start)
  {
  }

  /** A segment whose plane parameter falls outside [0, 1] misses and leaves c unchanged. */
  lemma SegmentTriangleMissOutside(c0: Vec3, start: Vec3, end: Vec3, a: Vec3, b: Vec3, c: Vec3)
    requires Dot(Sub(end, start), Sub(end, start)) >= Epsilon
    requires Dot(Sub(end, start), Normal(a, b, c)) != 0.0
    requires PlaneParam(start, end, a, b, c) < 0.0 || PlaneParam(start, end, a, b, c) > 1.0
    ensures SegmentTriangleHit(c0, start, end, a, b, c) == Hit(false, c0)
  {
  }

  /** A candidate pair of getClosestPointBetweenSegmentAndTriangle, (first, second). */
  datatype Pair = Pair(first: Vec3, second: Vec3)

  /** |second - first|^2. */
  function PairDistSq(q: Pair): real {
    DistSq(q.first, q.second)
  }

  /** The pair (p, plane projection of p) when the projection is within the triangle, else nothing. */
  function PlaneCandidate(p: Vec3, n: Vec3, d: real, a: Vec3, b: Vec3, c: Vec3): seq<Pair> {
    match ClosestPtPointPlane(p, n, d)
    case None => []
    case Some(q) => if IsPointWithinTriangle(q, a, b, c) then [Pair(p, q)] else []
  }

  /**
   * The candidates in the engine's order: for each edge ab, bc, ca the
   * pair (point of the edge, point of the segment) of the two closest
   * points, then (start, its plane projection) and (end, its plane
   * projection) for projections within the triangle.
   */
  function Candidates(start: Vec3, end: Vec3, a: Vec3, b: Vec3, c: Vec3): (ps: seq<Pair>)
    ensures 3 <= |ps| <= 5
  {
    var e1 := SegmentsClosest(start, end, a, b);
    var e2 := SegmentsClosest(start, end, b, c);
    var e3 := SegmentsClosest(start, end, c, a);
    var n := Normal(a, b, c);
    var d := Dot(a, n);
    [Pair(e1.c2, e1.c1), Pair(e2.c2, e2.c1), Pair(e3.c2, e3.c1)]
      + PlaneCandidate(start, n, d, a, b, c) + PlaneCandidate(end, n, d, a, b, c)
  }

  /**
   * The index the engine's scan settles on: it replaces the current pair
   * only by a strictly nearer one, so this is the first pair of least
   * squared distance.
   */
  function FirstMin(ps: seq<Pair>): (i: nat)
    requires |ps| > 0
    ensures i < |ps|
    ensures forall j :: 0 <= j < |ps| ==> PairDistSq(ps[i]) <= PairDistSq(ps[j])
    ensures forall j :: 0 <= j < i ==> PairDistSq(ps[j]) > PairDistSq(ps[i])
  {
    if |ps| == 1 then 0
    else
      var k := FirstMin(ps[..|ps| - 1]);
      if PairDistSq(ps[k]) > PairDistSq(ps[|ps| - 1]) then |ps| - 1 else k
  }

  /**
   * The outcome given the intersection verdict h and the candidates ps:
   * the hit point twice at distance 0 on a hit, else the first nearest
   * candidate.
   */
  function Choose(h: Hit, ps: seq<Pair>): ClosestPair
    requires |ps| > 0
  {
    if h.hit then ClosestPair(h.c, h.c, 0.0)
    else
      var q := ps[FirstMin(ps)];
      ClosestPair(q.first, q.second, PairDistSq(q))
  }

  /** What getClosestPointBetweenSegmentAndTriangle computes: (c1, c2, returned value). */
  function SegmentTriangleClosest(start: Vec3, end: Vec3, a: Vec3, b: Vec3, c: Vec3): ClosestPair {
    Choose(SegmentTriangleHit(start, start, end, a, b, c), Candidates(start, end, a, b, c))
  }

  /**
   * The chosen value is |c2 - c1|^2; on a hit it is 0 with c1 = c2 the hit
   * point, and otherwise it is one of the candidates' and no candidate is
   * nearer.
   */
  lemma ChooseIsMinimum(h: Hit, ps: seq<Pair>)
    requires |ps| > 0
    ensures var r := Choose(h, ps);
            r.dist2 == DistSq(r.c1, r.c2) && r.dist2 >= 0.0 &&
            (h.hit ==> r.c1 == r.c2 == h.c && r.dist2 == 0.0) &&
            (!h.hit ==> Pair(r.c1, r.c2) in ps && forall q :: q in ps ==> r.dist2 <= PairDistSq(q))
  {
    var r := Choose(h, ps);
    LengthSqNonNegative(Sub(r.c2, r.c1));
    if !h.hit {
      var i := FirstMin(ps);
      assert Pair(r.c1, r.c2) == ps[i];
      forall q | q in ps
        ensures r.dist2 <= PairDistSq(q)
      {
        var j :| 0 <= j < |ps| && ps[j] == q;
        assert PairDistSq(ps[i]) <= PairDistSq(ps[j]);
      }
    }
  }

  /**
   * getClosestPointBetweenSegmentAndTriangle returns |c2 - c1|^2; 0 with
   * c1 = c2 on a hit, otherwise a value no candidate pair undercuts.
   */
  lemma SegmentTriangleClosestIsMinimum(start: Vec3, end: Vec3, a: Vec3, b: Vec3, c: Vec3)
    ensures var r, h, ps := SegmentTriangleClosest(start, end, a, b, c),
                            SegmentTriangleHit(start, start, end, a, b, c), Candidates(start, end, a, b, c);
            r.dist2 == DistSq(r.c1, r.c2) && r.dist2 >= 0.0 &&
            (h.hit ==> r.c1 == r.c2 == h.c && r.dist2 == 0.0) &&
            (!h.hit ==> Pair(r.c1, r.c2) in ps && forall q :: q in ps ==> r.dist2 <= PairDistSq(q))
  {
    ChooseIsMinimum(SegmentTriangleHit(start, start, end, a, b, c), Candidates(start, end, a, b, c));
  }

  /** The value c holds on entry never shows in a hit, so the method passes start for it. */
  lemma HitIgnoresEntryValue(c0: Vec3, c1: Vec3, start: Vec3, end: Vec3, a: Vec3, b: Vec3, c: Vec3)
    ensures SegmentTriangleHit(c0, start, end, a, b, c).hit == SegmentTriangleHit(c1, start, end, a, b, c).hit
    ensures SegmentTriangleHit(c0, start, end, a, b, c).hit ==>
            SegmentTriangleHit(c0, start, end, a, b, c).c == SegmentTriangleHit(c1, start, end, a, b, c).c
  {
  }

  /** The candidates of the segment against the triangle, in order. */
  method CandidatePairs(start: Vec3, end: Vec3, a: Vec3, b: Vec3, c: Vec3) returns (pairs: seq<Pair>)
    ensures pairs == Candidates(start, end, a, b, c)
  {
    pairs := [];
    var s1, s2, edgeDist2 := ClosestPtSegmentSegment(start, end, a, b);
    pairs := pairs + [Pair(s2, s1)];
    s1, s2, edgeDist2 := ClosestPtSegmentSegment(start, end, b, c);
    pairs := pairs + [Pair(s2, s1)];
    s1, s2, edgeDist2 := ClosestPtSegmentSegment(start, end, c, a);
    pairs := pairs + [Pair(s2, s1)];
    var n := Normal(a, b, c);
    var d := Dot(a, n);
    var pc := ClosestPtPointPlane(start, n, d);
    if pc.Some? && IsPointWithinTriangle(pc.value, a, b, c) {
      pairs := pairs + [Pair(start, pc.value)];
    }
    var qc := ClosestPtPointPlane(end, n, d);
    if qc.Some? && IsPointWithinTriangle(qc.value, a, b, c) {
      pairs := pairs + [Pair(end, qc.value)];
    }
  }

  /** The scan: keep the current pair unless a later one is strictly nearer. */
  method NearestPair(pairs: seq<Pair>) returns (result: Pair, dist2: real)
    requires |pairs| > 0
    ensures result == pairs[FirstMin(pairs)] && dist2 == PairDistSq(result)
  {
    result := pairs[0];
    var diff := Sub(result.second, result.first);
    dist2 := Dot(diff, diff);
    ghost var k := 0;
    var i := 1;
    while i < |pairs|
      invariant 1 <= i <= |pairs|
      invariant k == FirstMin(pairs[..i]) && result == pairs[k]
      invariant dist2 == PairDistSq(result)
    {
      diff := Sub(pairs[i].second, pairs[i].first);
      var currDist2 := Dot(diff, diff);
      assert currDist2 == PairDistSq(pairs[i]);
      FirstMinStep(pairs, i, k);
      if dist2 > currDist2 {
        dist2 := currDist2;
        result := pairs[i];
        k := i;
      }
      i := i + 1;
    }
    assert pairs[..i] == pairs;
  }

  /** One more pair: the first minimum moves to it only when it is strictly nearer. */
  lemma FirstMinStep(pairs: seq<Pair>, i: nat, k: nat)
    requires 0 < i < |pairs| && k == FirstMin(pairs[..i])
    ensures FirstMin(pairs[..i + 1]) == if PairDistSq(pairs[k]) > PairDistSq(pairs[i]) then i else k
  {
    hide PairDistSq;
    assert pairs[..i + 1][..i] == pairs[..i];
  }

  /**
   * getClosestPointBetweenSegmentAndTriangle: the intersection test, then
   * the candidate pairs pushed in order, then the scan for the nearest.
   */
  method ClosestPtSegmentTriangle(start: Vec3, end: Vec3, a: Vec3, b: Vec3, c: Vec3)
    returns (c1: Vec3, c2: Vec3, dist2: real)
    ensures ClosestPair(c1, c2, dist2) == SegmentTriangleClosest(start, end, a, b, c)
  {
    var h := SegmentTriangleHit(start, start, end, a, b, c);
    if h.hit {
      c1 := h.c;
      c2 := c1;
      return c1, c2, 0.0;
    }
    var pairs := CandidatePairs(start, end, a, b, c);
    var result;
    result, dist2 := NearestPair(pairs);
    c1 := result.first;
    c2 := result.second;
  }
}
