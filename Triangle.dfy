// The Triangle record: three vertices the setters overwrite, and its
// queries, each the GeometryTriangle function on (v1, v2, v3). The
// three-point constructor stores v2 a second time in place of v3.
module Triangles {
  import opened Vectors
  import opened GeometryUtils
  import opened GeometryTriangle
  import opened Lines

  class Triangle {
    var v1: Vec3
    var v2: Vec3
    var v3: Vec3

    /**
     * The three-point constructor as written: it initialises the third
     * vertex from v2, so the argument v3 is ignored.
     */
    constructor (v1: Vec3, v2: Vec3, v3: Vec3)
      ensures this.v1 == v1 && this.v2 == v2 && this.v3 == v2
    {
      this.v1 := v1;
      this.v2 := v2;
      this.v3 := v2;
    }

    /** The three-point constructor as evidently intended: each vertex from its own argument. */
    constructor Corrected(v1: Vec3, v2: Vec3, v3: Vec3)
      ensures this.v1 == v1 && this.v2 == v2 && this.v3 == v3
    {
      this.v1 := v1;
      this.v2 := v2;
      this.v3 := v3;
    }

    /** The copy (and move) constructor: all three vertices. */
    constructor Copy(triangle: Triangle)
      ensures v1 == triangle.v1 && v2 == triangle.v2 && v3 == triangle.v3
    {
      v1 := triangle.v1;
      v2 := triangle.v2;
      v3 := triangle.v3;
    }

    /** Copy (and move) assignment. */
    method Assign(triangle: Triangle)
      modifies this
      ensures v1 == old(triangle.v1) && v2 == old(triangle.v2) && v3 == old(triangle.v3)
    {
      v1, v2, v3 := triangle.v1, triangle.v2, triangle.v3;
    }

    method SetVertex1(v: Vec3)
      modifies this
      ensures v1 == v && v2 == old(v2) && v3 == old(v3)
    {
      v1 := v;
    }

    method SetVertex2(v: Vec3)
      modifies this
      ensures v2 == v && v1 == old(v1) && v3 == old(v3)
    {
      v2 := v;
    }

    method SetVertex3(v: Vec3)
      modifies this
      ensures v3 == v && v1 == old(v1) && v2 == old(v2)
    {
      v3 := v;
    }

    /** getNormal: the static form's normal of the vertices, orthogonal to both edges it is built from. */
    function GetNormal(): (n: Vec3)
      reads this
      ensures n == Normal(v1, v2, v3)
      ensures Dot(n, Sub(v2, v1)) == 0.0 && Dot(n, Sub(v3, v2)) == 0.0
    {
      Normal(v1, v2, v3)
    }

    /**
     * getBarycentricCoord: coordinates summing to 1, None exactly for a
     * degenerate triangle, and (1 - v - w, v, w) again for the point
     * v1 + v (v2 - v1) + w (v3 - v1).
     */
    function BarycentricCoord(p: Vec3): (r: Option<Vec3>)
      reads this
      ensures r == Barycentric(p, v1, v2, v3)
      ensures r.None? <==> Gram(v1, v2, v3) == 0.0
      ensures r.Some? ==> r.value.x + r.value.y + r.value.z == 1.0
    {
      Barycentric(p, v1, v2, v3)
    }

    /** isWithinTriangle: the static test on the vertices. */
    function IsWithinTriangle(p: Vec3): (b: bool)
      reads this
      ensures b == IsPointWithinTriangle(p, v1, v2, v3)
      ensures b <==> (BarycentricCoord(p).Some? && BarycentricCoord(p).value.y >= 0.0 &&
                      BarycentricCoord(p).value.z >= 0.0 &&
                      BarycentricCoord(p).value.y + BarycentricCoord(p).value.z <= 1.0)
    {
      IsPointWithinTriangle(p, v1, v2, v3)
    }

    /**
     * getClosestPtPointTriangle: a vertex in its vertex region, and in every
     * region a convex combination of the vertices.
     */
    function ClosestPtPointTriangleOf(p: Vec3): (r: Option<Vec3>)
      reads this
      ensures r == ClosestPtPointTriangle(p, v1, v2, v3)
      ensures RegionOf(DotsOf(p, v1, v2, v3)) == VertexA ==> r == Some(v1)
      ensures RegionOf(DotsOf(p, v1, v2, v3)) == VertexB ==> r == Some(v2)
      ensures RegionOf(DotsOf(p, v1, v2, v3)) == VertexC ==> r == Some(v3)
      ensures r.Some? ==> exists v: real, w: real :: v >= 0.0 && w >= 0.0 && v + w <= 1.0 &&
                            r.value == TrianglePoint(v1, v2, v3, v, w)
    {
      var r := ClosestPtPointTriangle(p, v1, v2, v3);
      if r.Some? then ClosestPtPointTriangleOnTriangle(p, v1, v2, v3); r else r
    }

    /**
     * isSegmentIntersecting(c, start, end) with c0 the value of c on entry:
     * the GeometryTriangle verdict and the point c is left holding.
     */
    method IsSegmentIntersecting(c0: Vec3, start: Vec3, end: Vec3) returns (hit: bool, c: Vec3)
      ensures Hit(hit, c) == SegmentTriangleHit(c0, start, end, v1, v2, v3)
      ensures Dot(Sub(end, start), Sub(end, start)) < Epsilon ==> c == start && hit == IsWithinTriangle(start)
    {
      var n := GetNormal();
      var lVec := Sub(end, start);
      var len2 := Dot(lVec, lVec);
      c := c0;
      if len2 < Epsilon {
        c := start;
        hit := IsWithinTriangle(c);
        return;
      }
      if Dot(lVec, n) == 0.0 {
        // the engine's t is infinite or NaN and fails the range test
        hit := false;
        return;
      }
      var t := Dot(Sub(v1, start), n) / Dot(lVec, n);
      if t < 0.0 || t > 1.0 {
        hit := false;
        return;
      }
      c := Add(Scale(t, lVec), start);
      hit := IsWithinTriangle(c);
    }

    /** The overload taking a Line reads its endpoints. */
    method IsSegmentIntersectingLine(c0: Vec3, line: Line) returns (hit: bool, c: Vec3)
      ensures Hit(hit, c) == SegmentTriangleHit(c0, line.start, line.end, v1, v2, v3)
    {
      hit, c := IsSegmentIntersecting(c0, line.start, line.end);
    }

    /**
     * getClosestPtSegmentTriangle: 0 with c2 = c1 on a hit, otherwise the
     * first nearest of the edge pairs and the plane projections within the
     * triangle, and no candidate nearer.
     */
    method ClosestPtSegmentTriangleOf(start: Vec3, end: Vec3) returns (c1: Vec3, c2: Vec3, dist2: real)
      ensures ClosestPair(c1, c2, dist2) == SegmentTriangleClosest(start, end, v1, v2, v3)
      ensures dist2 == DistSq(c1, c2) && dist2 >= 0.0
      ensures !SegmentTriangleHit(start, start, end, v1, v2, v3).hit ==>
                forall q :: q in Candidates(start, end, v1, v2, v3) ==> dist2 <= PairDistSq(q)
    {
      c1, c2, dist2 := ClosestPtSegmentTriangle(start, end, v1, v2, v3);
      SegmentTriangleClosestIsMinimum(start, end, v1, v2, v3);
    }

    /** The overload taking a Line. */
    method ClosestPtSegmentTriangleLine(line: Line) returns (c1: Vec3, c2: Vec3, dist2: real)
      ensures ClosestPair(c1, c2, dist2) == SegmentTriangleClosest(line.start, line.end, v1, v2, v3)
    {
      c1, c2, dist2 := ClosestPtSegmentTriangle(line.start, line.end, v1, v2, v3);
    }
  }

  /**
   * The quirk of the three-point constructor: the triangle it builds is
   * degenerate (two equal vertices), so its barycentric coordinates are
   * undefined and no point is within it.
   */
  method ConstructedTriangleIsDegenerate(a: Vec3, b: Vec3, c: Vec3, p: Vec3) returns (t: Triangle)
    ensures t.v3 == t.v2 == b
    ensures Gram(t.v1, t.v2, t.v3) == 0.0
    ensures !t.IsWithinTriangle(p)
  {
    t := new Triangle(a, b, c);
    DegenerateGramIsZero(a, b);
  }

  /**
   * With the corrected constructor, a triangle built from three points in
   * general position holds exactly its points a + v (b - a) + w (c - a)
   * with v, w >= 0 and v + w <= 1.
   */
  method ConstructedCorrectedHoldsItsPoints(a: Vec3, b: Vec3, c: Vec3, v: real, w: real) returns (t: Triangle)
    requires Gram(a, b, c) != 0.0
    ensures t.v1 == a && t.v2 == b && t.v3 == c
    ensures t.IsWithinTriangle(TrianglePoint(a, b, c, v, w)) <==> v >= 0.0 && w >= 0.0 && v + w <= 1.0
  {
    t := new Triangle.Corrected(a, b, c);
    WithinIffWeights(a, b, c, v, w);
  }
}
