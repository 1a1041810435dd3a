// What the bounding volumes share: the triangles of a box as the engine
// builds them, the corner lists its containment loops walk, the running
// minimum over the triangles, and the frame matrix R[j][i] = a_i . b_j.
// A box is given by its world center and three edge vectors (an axis
// scaled by its half extent, or a coordinate axis scaled for an AABB).
module Volumes {
  import opened Vectors
  import opened GeometryBox
  import opened GeometryUtils
  import opened GeometryTriangle
  import opened BoundingSpheres

  /**
   * A triangle as stored by the engine. Boxes build theirs with the
   * three-point constructor, which keeps the second vertex in place of the
   * third, so every box triangle is (a, b, b).
   */
  datatype Tri = Tri(v1: Vec3, v2: Vec3, v3: Vec3)

  function Constructed(a: Vec3, b: Vec3, c: Vec3): Tri {
    Tri(a, b, b)
  }

  /** A vector of signs, each +1 or -1. */
  predicate IsSigns(s: Vec3) {
    (s.x == 1.0 || s.x == -1.0) && (s.y == 1.0 || s.y == -1.0) && (s.z == 1.0 || s.z == -1.0)
  }

  /** The signs of the three vertices a, b, c passed to the constructor. */
  datatype TriSigns = TriSigns(a: Vec3, b: Vec3, c: Vec3)

  /** All three vertices carry the sign `sign` on the axis `axis` (0, 1, 2 for x, y, z). */
  predicate OnFace(t: TriSigns, axis: nat, sign: real)
    requires axis < 3
  {
    IsSigns(t.a) && IsSigns(t.b) && IsSigns(t.c) &&
    At(t.a, axis) == sign && At(t.b, axis) == sign && At(t.c, axis) == sign
  }

  /**
   * getTriangles of both box types: two triangles per face, in the order
   * +x, -x, +y, -y, +z, -z; triangle k lies on the face of axis k / 4,
   * positive for k % 4 < 2.
   */
  function FaceSigns(): (t: seq<TriSigns>)
    ensures |t| == 12
    ensures forall k :: 0 <= k < 12 ==> OnFace(t[k], k / 4, if k % 4 < 2 then 1.0 else -1.0)
  {
    [ TriSigns(Vec3( 1.0, -1.0,  1.0), Vec3( 1.0, -1.0, -1.0), Vec3( 1.0,  1.0,  1.0)),
      TriSigns(Vec3( 1.0, -1.0, -1.0), Vec3( 1.0,  1.0, -1.0), Vec3( 1.0,  1.0,  1.0)),
      TriSigns(Vec3(-1.0, -1.0,  1.0), Vec3(-1.0,  1.0,  1.0), Vec3(-1.0, -1.0, -1.0)),
      TriSigns(Vec3(-1.0, -1.0, -1.0), Vec3(-1.0,  1.0,  1.0), Vec3(-1.0,  1.0, -1.0)),
      TriSigns(Vec3(-1.0,  1.0,  1.0), Vec3( 1.0,  1.0,  1.0), Vec3(-1.0,  1.0, -1.0)),
      TriSigns(Vec3( 1.0,  1.0,  1.0), Vec3( 1.0,  1.0, -1.0), Vec3(-1.0,  1.0, -1.0)),
      TriSigns(Vec3(-1.0, -1.0,  1.0), Vec3(-1.0, -1.0, -1.0), Vec3( 1.0, -1.0,  1.0)),
      TriSigns(Vec3( 1.0, -1.0,  1.0), Vec3(-1.0, -1.0, -1.0), Vec3( 1.0, -1.0, -1.0)),
      TriSigns(Vec3(-1.0, -1.0,  1.0), Vec3( 1.0, -1.0,  1.0), Vec3(-1.0,  1.0,  1.0)),
      TriSigns(Vec3( 1.0, -1.0,  1.0), Vec3( 1.0,  1.0,  1.0), Vec3(-1.0,  1.0,  1.0)),
      TriSigns(Vec3(-1.0, -1.0, -1.0), Vec3(-1.0,  1.0, -1.0), Vec3( 1.0, -1.0, -1.0)),
      TriSigns(Vec3( 1.0, -1.0, -1.0), Vec3(-1.0,  1.0, -1.0), Vec3( 1.0,  1.0, -1.0)) ]
  }

  /** center + s.x ex + s.y ey + s.z ez: the vertex of sign s of the box with edge vectors ex, ey, ez. */
  function Vertex(center: Vec3, ex: Vec3, ey: Vec3, ez: Vec3, s: Vec3): Vec3 {
    BoxPoint(center, ex, ey, ez, s.x, s.y, s.z)
  }

  function TriangleOf(center: Vec3, ex: Vec3, ey: Vec3, ez: Vec3, t: TriSigns): Tri {
    Constructed(Vertex(center, ex, ey, ez, t.a), Vertex(center, ex, ey, ez, t.b), Vertex(center, ex, ey, ez, t.c))
  }

  /** The twelve triangles of a box, each built by the three-point constructor. */
  function BoxTriangles(center: Vec3, ex: Vec3, ey: Vec3, ez: Vec3): (ts: seq<Tri>)
    ensures |ts| == 12
  {
    var signs := FaceSigns();
    seq(12, k requires 0 <= k < 12 => TriangleOf(center, ex, ey, ez, signs[k]))
  }

  /**
   * Every box triangle is degenerate (its third vertex is its second), and
   * its two vertices are box vertices of signs that agree on the face's
   * axis: the first two vertices of triangle k lie on face k / 4.
   */
  lemma BoxTrianglesOnFaces(center: Vec3, ex: Vec3, ey: Vec3, ez: Vec3, k: nat)
    requires k < 12
    ensures var t, s := BoxTriangles(center, ex, ey, ez)[k], FaceSigns()[k];
            t.v3 == t.v2 &&
            t.v1 == Vertex(center, ex, ey, ez, s.a) && t.v2 == Vertex(center, ex, ey, ez, s.b) &&
            OnFace(s, k / 4, if k % 4 < 2 then 1.0 else -1.0)
  {
  }

  /**
   * A box triangle (a, b, b) has a zero normal, so no segment ever meets
   * it: the intersection test fails, short segment or long.
   */
  lemma DegenerateTriangleNeverHit(c0: Vec3, start: Vec3, end: Vec3, a: Vec3, b: Vec3)
    ensures !SegmentTriangleHit(c0, start, end, a, b, b).hit
  {
    ZeroNormal(a, b);
    DegenerateGramIsZero(a, b);
    FlatTriangleNeverHit(c0, start, end, a, b, b);
  }

  /** A triangle with a zero normal and a zero Gram determinant is never hit. */
  lemma FlatTriangleNeverHit(c0: Vec3, start: Vec3, end: Vec3, a: Vec3, b: Vec3, c: Vec3)
    requires Normal(a, b, c) == Zero && Gram(a, b, c) == 0.0
    ensures !SegmentTriangleHit(c0, start, end, a, b, c).hit
  {
    if Dot(Sub(end, start), Sub(end, start)) < Epsilon {
      assert Barycentric(start, a, b, c).None?;
      SegmentTriangleHitShort(c0, start, end, a, b, c);
    } else {
      DotZeroRight(Sub(end, start), Normal(a, b, c));
      SegmentTriangleHitParallel(c0, start, end, a, b, c);
    }
  }

  /** A segment longer than epsilon parallel to the triangle's plane misses it. */
  lemma SegmentTriangleHitParallel(c0: Vec3, start: Vec3, end: Vec3, a: Vec3, b: Vec3, c: Vec3)
    requires Dot(Sub(end, start), Sub(end, start)) >= Epsilon
    requires Dot(Sub(end, start), Normal(a, b, c)) == 0.0
    ensures SegmentTriangleHit(c0, start, end, a, b, c) == Hit(false, c0)
  {
  }

  lemma DotZeroRight(u: Vec3, v: Vec3)
    requires v == Zero
    ensures Dot(u, v) == 0.0
  {
  }

  /** The normal of (a, b, b) is the cross product with a zero edge. */
  lemma ZeroNormal(a: Vec3, b: Vec3)
    ensures Normal(a, b, b) == Zero
  {
    assert Sub(b, b) == Zero;
  }

  /**
   * Against a degenerate triangle (a, b, b) the closest-point query can
   * only return one of its edge pairs, so its value is at most the
   * segment-segment distance to the edge ab.
   */
  lemma DegenerateTriangleClosestIsEdge(start: Vec3, end: Vec3, a: Vec3, b: Vec3)
    ensures SegmentTriangleClosest(start, end, a, b, b).dist2 <= SegmentsClosest(start, end, a, b).dist2
  {
    DegenerateTriangleNeverHit(start, start, end, a, b);
    MissedTriangleClosestIsEdge(start, end, a, b, b);
  }

  /** When the segment misses the triangle, the result is at most the distance to the edge ab. */
  lemma MissedTriangleClosestIsEdge(start: Vec3, end: Vec3, a: Vec3, b: Vec3, c: Vec3)
    requires !SegmentTriangleHit(start, start, end, a, b, c).hit
    ensures SegmentTriangleClosest(start, end, a, b, c).dist2 <= SegmentsClosest(start, end, a, b).dist2
  {
    var ps := Candidates(start, end, a, b, c);
    ChooseIsMinimum(SegmentTriangleHit(start, start, end, a, b, c), ps);
    var e1 := SegmentsClosest(start, end, a, b);
    assert ps[0] == Pair(e1.c2, e1.c1);
    DistSqSymmetric(e1.c1, e1.c2);
  }

  lemma DistSqSymmetric(p: Vec3, q: Vec3)
    ensures DistSq(p, q) == DistSq(q, p)
  {
  }

  // ---------------------------------------------------------------------
  // The running minimum over the triangles
  // ---------------------------------------------------------------------

  /** The least element of a non-empty sequence. */
  function MinOf(xs: seq<real>): (m: real)
    requires |xs| > 0
    ensures m in xs
    ensures forall k :: 0 <= k < |xs| ==> m <= xs[k]
  {
    if |xs| == 1 then xs[0]
    else
      var m := MinOf(xs[..|xs| - 1]);
      if xs[|xs| - 1] < m then xs[|xs| - 1] else m
  }

  /** The segment-triangle squared distance of each triangle, in order. */
  function SegmentTriangleDists(start: Vec3, end: Vec3, ts: seq<Tri>): (ds: seq<real>)
    ensures |ds| == |ts|
  {
    seq(|ts|, k requires 0 <= k < |ts| => TriDist2(start, end, ts[k]))
  }

  /** What getClosestPtSegmentTriangle returns for the segment and the triangle t. */
  function TriDist2(start: Vec3, end: Vec3, t: Tri): real {
    SegmentTriangleClosest(start, end, t.v1, t.v2, t.v3).dist2
  }

  /**
   * The loop of the capsule tests against box triangles: dist2 starts at
   * the first triangle's value and is replaced by every strictly smaller
   * one; the closest points c1 and c2 are overwritten on every call and
   * not used.
   */
  method MinSegmentTriangleDist2(start: Vec3, end: Vec3, ts: seq<Tri>) returns (dist2: real)
    requires |ts| > 0
    ensures dist2 == MinOf(SegmentTriangleDists(start, end, ts))
  {
    dist2 := TriangleDist2(start, end, ts, 0);
    MinOfFirst(start, end, ts, dist2);
    var i := 1;
    while i < |ts|
      invariant 1 <= i <= |ts|
      invariant dist2 == MinOf(SegmentTriangleDists(start, end, ts[..i]))
    {
      dist2 := KeepSmaller(start, end, ts, i, dist2);
      i := i + 1;
    }
    assert ts[..|ts|] == ts;
  }

  /** One iteration: triangle i's value replaces dist2 only when strictly smaller. */
  method KeepSmaller(start: Vec3, end: Vec3, ts: seq<Tri>, i: nat, dist2: real) returns (r: real)
    requires 0 < i < |ts| && dist2 == MinOf(SegmentTriangleDists(start, end, ts[..i]))
    ensures r == MinOf(SegmentTriangleDists(start, end, ts[..i + 1]))
  {
    var currDist2 := TriangleDist2(start, end, ts, i);
    r := dist2;
    if currDist2 < dist2 {
      r := currDist2;
    }
    MinOfPrefixStep(start, end, ts, i, currDist2, dist2, r);
  }

  /** One call getClosestPtSegmentTriangle on triangle k; c1 and c2 are dropped. */
  method TriangleDist2(start: Vec3, end: Vec3, ts: seq<Tri>, k: nat) returns (dist2: real)
    requires k < |ts|
    ensures dist2 == TriDist2(start, end, ts[k])
  {
    var c1, c2;
    c1, c2, dist2 := ClosestPtSegmentTriangle(start, end, ts[k].v1, ts[k].v2, ts[k].v3);
  }

  lemma MinOfFirst(start: Vec3, end: Vec3, ts: seq<Tri>, d: real)
    requires 0 < |ts| && d == TriDist2(start, end, ts[0])
    ensures d == MinOf(SegmentTriangleDists(start, end, ts[..1]))
  {
    assert SegmentTriangleDists(start, end, ts[..1])[0] == d;
  }

  /** The minimum over one more triangle is the old minimum or the new value, whichever is less. */
  lemma MinOfPrefixStep(start: Vec3, end: Vec3, ts: seq<Tri>, i: nat, d: real, m: real, r: real)
    requires 0 < i < |ts| && d == TriDist2(start, end, ts[i])
    requires m == MinOf(SegmentTriangleDists(start, end, ts[..i]))
    requires r == if d < m then d else m
    ensures r == MinOf(SegmentTriangleDists(start, end, ts[..i + 1]))
  {
    hide TriDist2, SegmentTriangleClosest;
    var ds := SegmentTriangleDists(start, end, ts[..i + 1]);
    assert ds[i] == d;
    assert ts[..i + 1][..i] == ts[..i];
    assert ds[..i] == SegmentTriangleDists(start, end, ts[..i]);
  }

  /** The minimum of the triangle distances is one of them and no larger than any. */
  lemma MinSegmentTriangleDist2IsLeast(start: Vec3, end: Vec3, ts: seq<Tri>, k: nat)
    requires k < |ts|
    ensures var ds := SegmentTriangleDists(start, end, ts);
            MinOf(ds) <= SegmentTriangleClosest(start, end, ts[k].v1, ts[k].v2, ts[k].v3).dist2 &&
            exists j :: 0 <= j < |ts| && MinOf(ds) == ds[j]
  {
    var ds := SegmentTriangleDists(start, end, ts);
    assert ds[k] == SegmentTriangleClosest(start, end, ts[k].v1, ts[k].v2, ts[k].v3).dist2;
  }

  /** Some triangle of ts comes within squared distance radius2 of the segment. */
  predicate SomeTriangleWithin(start: Vec3, end: Vec3, ts: seq<Tri>, radius2: real) {
    exists k :: 0 <= k < |ts| && TriDist2(start, end, ts[k]) <= radius2
  }

  /**
   * The capsule-against-box-triangles test: the running minimum over the
   * triangles compared with radius2. It holds exactly when some triangle
   * comes within radius2.
   */
  method MinTriangleDistWithin(start: Vec3, end: Vec3, ts: seq<Tri>, radius2: real) returns (b: bool)
    requires |ts| > 0
    ensures b <==> SomeTriangleWithin(start, end, ts, radius2)
  {
    var dist2 := MinSegmentTriangleDist2(start, end, ts);
    b := dist2 <= radius2;
    MinWithinIffSome(start, end, ts, radius2);
  }

  /** The least triangle distance is within radius2 exactly when some triangle's is. */
  lemma MinWithinIffSome(start: Vec3, end: Vec3, ts: seq<Tri>, radius2: real)
    requires |ts| > 0
    ensures MinOf(SegmentTriangleDists(start, end, ts)) <= radius2 <==> SomeTriangleWithin(start, end, ts, radius2)
  {
    MinWithinIffAny(SegmentTriangleDists(start, end, ts), radius2);
    AnyDistWithinIffSome(start, end, ts, radius2);
  }

  /** Some entry of ds is at most radius2. */
  predicate AnyAtMost(ds: seq<real>, radius2: real) {
    exists k :: 0 <= k < |ds| && ds[k] <= radius2
  }

  /** The least entry is at most radius2 exactly when some entry is. */
  lemma MinWithinIffAny(ds: seq<real>, radius2: real)
    requires |ds| > 0
    ensures MinOf(ds) <= radius2 <==> AnyAtMost(ds, radius2)
  {
    if MinOf(ds) <= radius2 {
      var j :| 0 <= j < |ds| && ds[j] == MinOf(ds);
    }
  }

  /** Some triangle's distance is at most radius2 exactly when some triangle is within radius2. */
  lemma AnyDistWithinIffSome(start: Vec3, end: Vec3, ts: seq<Tri>, radius2: real)
    ensures AnyAtMost(SegmentTriangleDists(start, end, ts), radius2) <==> SomeTriangleWithin(start, end, ts, radius2)
  {
    var ds := SegmentTriangleDists(start, end, ts);
    if AnyAtMost(ds, radius2) {
      var j :| 0 <= j < |ds| && ds[j] <= radius2;
      assert TriDist2(start, end, ts[j]) == ds[j];
    }
    if SomeTriangleWithin(start, end, ts, radius2) {
      var k :| 0 <= k < |ts| && TriDist2(start, end, ts[k]) <= radius2;
      assert ds[k] == TriDist2(start, end, ts[k]);
    }
  }

  /**
   * A triangle (a, b, b) is within radius2 as soon as the segment a-b is:
   * the segment-triangle distance of a degenerate triangle is at most
   * the distance to its edge.
   */
  lemma DegenerateTriangleWithin(start: Vec3, end: Vec3, ts: seq<Tri>, k: nat, radius2: real)
    requires k < |ts| && ts[k].v3 == ts[k].v2
    requires SegmentsClosest(start, end, ts[k].v1, ts[k].v2).dist2 <= radius2
    ensures SomeTriangleWithin(start, end, ts, radius2)
  {
    TriDist2AtMostEdge(start, end, ts[k]);
  }

  /** The distance to a degenerate triangle (a, b, b) is at most the distance to its edge a-b. */
  lemma TriDist2AtMostEdge(start: Vec3, end: Vec3, t: Tri)
    requires t.v3 == t.v2
    ensures TriDist2(start, end, t) <= SegmentsClosest(start, end, t.v1, t.v2).dist2
  {
    DegenerateTriangleClosestIsEdge(start, end, t.v1, t.v2);
  }

  // ---------------------------------------------------------------------
  // Corner lists of the containment loops
  // ---------------------------------------------------------------------

  /** The order of the engine's eight test points: ---, --+, +--, +-+, +++, ++-, -++, -+-. */
  function CornerSigns(): (s: seq<Vec3>)
    ensures |s| == 8
    ensures forall k :: 0 <= k < 8 ==> IsSigns(s[k])
    ensures forall j, k :: 0 <= j < k < 8 ==> s[j] != s[k]
  {
    [Vec3(-1.0, -1.0, -1.0), Vec3(-1.0, -1.0, 1.0), Vec3(1.0, -1.0, -1.0), Vec3(1.0, -1.0, 1.0),
     Vec3(1.0, 1.0, 1.0), Vec3(1.0, 1.0, -1.0), Vec3(-1.0, 1.0, 1.0), Vec3(-1.0, 1.0, -1.0)]
  }

  /** The corners center +/- ex +/- ey +/- ez in the engine's order. */
  function BoxCorners(center: Vec3, ex: Vec3, ey: Vec3, ez: Vec3): (ps: seq<Vec3>)
    ensures |ps| == 8
  {
    var s := CornerSigns();
    seq(8, k requires 0 <= k < 8 => Vertex(center, ex, ey, ez, s[k]))
  }

  /** The component of lo or hi that the sign picks: lo for -1, hi for +1. */
  function Pick(lo: real, hi: real, s: real): real {
    if s < 0.0 then lo else hi
  }

  /**
   * The eight points built from the components of a box's min and max
   * corners, in the engine's order: bMin, (min, min, max), (max, min, min),
   * (max, min, max), bMax, (max, max, min), (min, max, max), (min, max, min).
   */
  function MinMaxCorners(lo: Vec3, hi: Vec3): (ps: seq<Vec3>)
    ensures |ps| == 8
  {
    var s := CornerSigns();
    seq(8, k requires 0 <= k < 8 => Vec3(Pick(lo.x, hi.x, s[k].x), Pick(lo.y, hi.y, s[k].y), Pick(lo.z, hi.z, s[k].z)))
  }

  /** The corners of the cube c +/- (r, r, r). */
  function CubeCorners(c: Vec3, r: real): (ps: seq<Vec3>)
    ensures |ps| == 8
  {
    MinMaxCorners(Sub(c, Splat(r)), Add(c, Splat(r)))
  }

  /**
   * The cube corners are the box corners of the coordinate axes scaled by
   * r: both lists visit the same vertices in the same order.
   */
  lemma CubeCornersAreBoxCorners(c: Vec3, r: real)
    ensures CubeCorners(c, r) == BoxCorners(c, Scale(r, UnitX), Scale(r, UnitY), Scale(r, UnitZ))
  {
    var cs, bs := CubeCorners(c, r), BoxCorners(c, Scale(r, UnitX), Scale(r, UnitY), Scale(r, UnitZ));
    forall k | 0 <= k < 8
      ensures cs[k] == bs[k]
    {
      var s := CornerSigns()[k];
      assert Pick(c.x - r, c.x + r, s.x) == c.x + s.x * r;
      assert Pick(c.y - r, c.y + r, s.y) == c.y + s.y * r;
      assert Pick(c.z - r, c.z + r, s.z) == c.z + s.z * r;
    }
  }

  /**
   * With orthonormal axes, the corner of sign s of the box with edge
   * vectors h.x X, h.y Y, h.z Z has box coordinates (s.x h.x, s.y h.y,
   * s.z h.z): each corner sits at the half extents, on the side its sign
   * picks.
   */
  lemma CornerCoordinates(center: Vec3, xAxis: Vec3, yAxis: Vec3, zAxis: Vec3, h: Vec3, s: Vec3)
    requires Orthonormal(xAxis, yAxis, zAxis)
    ensures Projections(Vertex(center, Scale(h.x, xAxis), Scale(h.y, yAxis), Scale(h.z, zAxis), s),
                        center, xAxis, yAxis, zAxis)
            == Vec3(s.x * h.x, s.y * h.y, s.z * h.z)
  {
    ScaleScale(s.x, h.x, xAxis);
    ScaleScale(s.y, h.y, yAxis);
    ScaleScale(s.z, h.z, zAxis);
    var ex, ey, ez := Scale(h.x, xAxis), Scale(h.y, yAxis), Scale(h.z, zAxis);
    assert Vertex(center, ex, ey, ez, s)
        == Add(Add(Add(center, Scale(s.x, ex)), Scale(s.y, ey)), Scale(s.z, ez));
    BoxPointCoordinates(center, xAxis, yAxis, zAxis, s.x * h.x, s.y * h.y, s.z * h.z);
  }

  lemma ScaleScale(a: real, b: real, v: Vec3)
    ensures Scale(a, Scale(b, v)) == Scale(a * b, v)
  {
    assert a * (b * v.x) == (a * b) * v.x;
    assert a * (b * v.y) == (a * b) * v.y;
    assert a * (b * v.z) == (a * b) * v.z;
  }

  // ---------------------------------------------------------------------
  // The frame matrix
  // ---------------------------------------------------------------------

  /** The matrix with R[j][i] = a_i . b_j, the fill of the engine's nested loops. */
  function FrameMatrix(a0: Vec3, a1: Vec3, a2: Vec3, b0: Vec3, b1: Vec3, b2: Vec3): Mat3 {
    [[Dot(a0, b0), Dot(a1, b0), Dot(a2, b0)],
     [Dot(a0, b1), Dot(a1, b1), Dot(a2, b1)],
     [Dot(a0, b2), Dot(a1, b2), Dot(a2, b2)]]
  }

  /**
   * Row r of FrameMatrix(a, b) * v is a_r . (v.x b0 + v.y b1 + v.z b2): the
   * matrix maps coordinates in the b frame to coordinates in the a frame.
   */
  lemma FrameMatrixMaps(a0: Vec3, a1: Vec3, a2: Vec3, b0: Vec3, b1: Vec3, b2: Vec3, v: Vec3)
    ensures var w := Add(Add(Scale(v.x, b0), Scale(v.y, b1)), Scale(v.z, b2));
            MulVec(FrameMatrix(a0, a1, a2, b0, b1, b2), v) == Vec3(Dot(a0, w), Dot(a1, w), Dot(a2, w))
  {
    var w := Add(Add(Scale(v.x, b0), Scale(v.y, b1)), Scale(v.z, b2));
    CoordinateOf(b0, b1, b2, v.x, v.y, v.z, a0);
    CoordinateOf(b0, b1, b2, v.x, v.y, v.z, a1);
    CoordinateOf(b0, b1, b2, v.x, v.y, v.z, a2);
    assert Dot(a0, w) == Dot(w, a0) && Dot(a1, w) == Dot(w, a1) && Dot(a2, w) == Dot(w, a2);
  }

  /**
   * Against the coordinate axes the frame matrix is the projection onto
   * a's axes: R * v = (a0 . v, a1 . v, a2 . v).
   */
  lemma FrameMatrixOfUnitAxes(a0: Vec3, a1: Vec3, a2: Vec3, v: Vec3)
    ensures MulVec(FrameMatrix(a0, a1, a2, UnitX, UnitY, UnitZ), v) == Vec3(Dot(a0, v), Dot(a1, v), Dot(a2, v))
  {
  }

  // ---------------------------------------------------------------------
  // The volumes as the predicates see them
  // ---------------------------------------------------------------------

  /**
   * A sphere: its world center (computed from the transform by the
   * caller), its local radius and the scale of its transform.
   */
  datatype SphereGeom = SphereGeom(center: Vec3, radius: real, scale: Vec3)
  {
    /** getActualRadius. */
    function WorldRadius(): real {
      ActualRadius(radius, scale)
    }
  }

  /**
   * An oriented box: world center, the three unit axes of its rotation
   * and its actual (scaled) half extents.
   */
  datatype ObbGeom = ObbGeom(center: Vec3, xAxis: Vec3, yAxis: Vec3, zAxis: Vec3, extents: Vec3)
  {
    function EdgeX(): Vec3 { Scale(extents.x, xAxis) }
    function EdgeY(): Vec3 { Scale(extents.y, yAxis) }
    function EdgeZ(): Vec3 { Scale(extents.z, zAxis) }

    /** The eight corners center +/- xLen +/- yLen +/- zLen in the engine's order. */
    function Corners(): seq<Vec3> {
      BoxCorners(center, EdgeX(), EdgeY(), EdgeZ())
    }

    /** getTriangles. */
    function Triangles(): seq<Tri> {
      BoxTriangles(center, EdgeX(), EdgeY(), EdgeZ())
    }
  }

  /** An axis-aligned box: world center and the refitted half extents. */
  datatype AabbGeom = AabbGeom(center: Vec3, halfExtents: Vec3)
  {
    function Min(): Vec3 { Sub(center, halfExtents) }
    function Max(): Vec3 { Add(center, halfExtents) }

    /** The edge vectors (h.x, 0, 0), (0, h.y, 0), (0, 0, h.z). */
    function EdgeX(): Vec3 { Vec3(halfExtents.x, 0.0, 0.0) }
    function EdgeY(): Vec3 { Vec3(0.0, halfExtents.y, 0.0) }
    function EdgeZ(): Vec3 { Vec3(0.0, 0.0, halfExtents.z) }

    /** The eight corners center + (+/-h.x, +/-h.y, +/-h.z) in the engine's order. */
    function Corners(): seq<Vec3> {
      BoxCorners(center, EdgeX(), EdgeY(), EdgeZ())
    }

    /** getTriangles: the vertices are center + (+/-h.x, +/-h.y, +/-h.z). */
    function Triangles(): seq<Tri> {
      BoxTriangles(center, EdgeX(), EdgeY(), EdgeZ())
    }
  }

  /**
   * A capsule: the linear part and the translation of its transform
   * matrix, its line length and local radius. The actual line and the
   * actual radius that the oriented box asks it for are computed by code
   * outside this model and are given as they are.
   */
  datatype CapsuleGeom = CapsuleGeom(linear: Mat3, translation: Vec3, lineLength: real, radius: real,
                                     actualStart: Vec3, actualEnd: Vec3, actualRadius: real)
  {
    /** The image of a local point under the transform matrix. */
    function Transformed(p: Vec3): Vec3 {
      Add(MulVec(linear, p), translation)
    }

    /** The bottom center (0, -length / 2, 0) of the line. */
    function Bottom(): Vec3 { Vec3(0.0, -lineLength * 0.5, 0.0) }

    /** The top center (0, length / 2, 0) of the line. */
    function Top(): Vec3 { Vec3(0.0, lineLength * 0.5, 0.0) }

    function Start(): Vec3 { Transformed(Bottom()) }
    function End(): Vec3 { Transformed(Top()) }
  }

  // ---------------------------------------------------------------------
  // The containment loops
  // ---------------------------------------------------------------------

  /** -h <= pt <= h on every axis. */
  predicate WithinExtents(pt: Vec3, h: Vec3) {
    -h.x <= pt.x <= h.x && -h.y <= pt.y <= h.y && -h.z <= pt.z <= h.z
  }

  /** Every point, taken relative to center and mapped by R, is within [-h, h]. */
  predicate MappedWithin(R: Mat3, center: Vec3, pts: seq<Vec3>, h: Vec3) {
    forall k :: 0 <= k < |pts| ==> WithinExtents(MulVec(R, Sub(pts[k], center)), h)
  }

  /** The loop `pt = R * (testPoints[i] - center)`, false at the first point outside [-h, h]. */
  method CheckMappedWithin(R: Mat3, center: Vec3, pts: seq<Vec3>, h: Vec3) returns (b: bool)
    ensures b <==> MappedWithin(R, center, pts, h)
  {
    for i := 0 to |pts|
      invariant forall k :: 0 <= k < i ==> WithinExtents(MulVec(R, Sub(pts[k], center)), h)
    {
      var pt := MulVec(R, Sub(pts[i], center));
      if pt.x > h.x || pt.x < -h.x || pt.y > h.y || pt.y < -h.y || pt.z > h.z || pt.z < -h.z {
        return false;
      }
    }
    return true;
  }

  /** Every point is within squared distance radius2 of c. */
  predicate AllWithinRadius(pts: seq<Vec3>, c: Vec3, radius2: real) {
    forall k :: 0 <= k < |pts| ==> Dot(Sub(pts[k], c), Sub(pts[k], c)) <= radius2
  }

  /** The loop over the corners against a sphere, false at the first corner too far away. */
  method CheckWithinRadius(pts: seq<Vec3>, c: Vec3, radius2: real) returns (b: bool)
    ensures b <==> AllWithinRadius(pts, c, radius2)
  {
    for i := 0 to |pts|
      invariant forall k :: 0 <= k < i ==> Dot(Sub(pts[k], c), Sub(pts[k], c)) <= radius2
    {
      var diff := Sub(pts[i], c);
      if Dot(diff, diff) > radius2 {
        return false;
      }
    }
    return true;
  }

  /** Every point is within squared distance radius2 of the segment start-end. */
  predicate AllNearSegment(pts: seq<Vec3>, start: Vec3, end: Vec3, radius2: real) {
    forall k :: 0 <= k < |pts| ==> SqDistToSegment(pts[k], start, end) <= radius2
  }

  /** |closest point of the segment to p - p|^2, the engine's `dot(diff, diff)`. */
  function SqDistToSegment(p: Vec3, start: Vec3, end: Vec3): real {
    var diff := Sub(ClosestPtPointSegment(p, start, end), p);
    Dot(diff, diff)
  }

  /** The loop over the points against a capsule's segment, false at the first one too far away. */
  method CheckNearSegment(pts: seq<Vec3>, start: Vec3, end: Vec3, radius2: real) returns (b: bool)
    ensures b <==> AllNearSegment(pts, start, end, radius2)
  {
    for i := 0 to |pts|
      invariant forall k :: 0 <= k < i ==> SqDistToSegment(pts[k], start, end) <= radius2
    {
      var diff := Sub(ClosestPtPointSegment(pts[i], start, end), pts[i]);
      if Dot(diff, diff) > radius2 {
        return false;
      }
    }
    return true;
  }

  // ---------------------------------------------------------------------
  // Dispatch between kinds of volume
  // ---------------------------------------------------------------------

  /** The four kinds of bounding volume that the predicates tell apart by their dynamic type. */
  datatype Volume =
    | SphereVolume(sphere: SphereGeom)
    | CapsuleVolume(capsule: CapsuleGeom)
    | ObbVolume(box: ObbGeom)
    | AabbVolume(aabb: AabbGeom)

  /** The three questions one volume answers about another. */
  datatype Query = Intersects | Encloses | IsEnclosedBy

  /**
   * A volume's reply: its own answer, or a hand-over to the other operand
   * (the "handle all others here" fallback of every predicate).
   */
  datatype Reply = Answer(holds: bool) | Delegate

  /** The question the other operand is asked on a hand-over: intersects stays, the other two trade places. */
  function Swapped(q: Query): (r: Query)
    ensures (r == Intersects) == (q == Intersects)
    ensures q != r || q == Intersects
  {
    match q
    case Intersects => Intersects
    case Encloses => IsEnclosedBy
    case IsEnclosedBy => Encloses
  }

  /** Handing over twice asks the original question again. */
  lemma SwappedTwice(q: Query)
    ensures Swapped(Swapped(q)) == q
  {
  }
}
