// BoundingCapsule: a segment of length capsuleLineLength along the local
// y axis, centred on the origin, swept by a sphere of the given radius.
// Its world segment runs from the image of the bottom center
// (0, -length / 2, 0) to the image of the top center (0, length / 2, 0)
// under the transform matrix (CapsuleGeom.Start and End). Every test that
// compares a length (glm::length) takes the square root as a parameter;
// the lemmas ask only that it is one (Vectors.IsSqrt) and restate each test
// on squared distances.
module Capsules {
  import opened Vectors
  import opened SceneObjects
  import opened GeometryUtils
  import opened Frames
  import opened Volumes
  import AlignedBoxes

  class BoundingCapsule {
    var capsuleLineLength: real
    var radius: real
    var name: string
    var transform: Transform
    var children: seq<SceneObject?>

    constructor (capsuleLineLength: real, radius: real, name: string, transform: Transform)
      ensures this.capsuleLineLength == capsuleLineLength && this.radius == radius
      ensures this.name == name && this.transform == transform && children == []
    {
      this.capsuleLineLength := capsuleLineLength;
      this.radius := radius;
      this.name := name;
      this.transform := transform;
      children := [];
    }

    /**
     * The copy constructor: the line length, the radius and the children
     * are copied; the name and the transform are initialised from the new
     * object's own (not yet initialised) members, so nothing is said of them.
     */
    constructor Copy(capsule: BoundingCapsule)
      ensures capsuleLineLength == capsule.capsuleLineLength && radius == capsule.radius
      ensures children == capsule.children
    {
      capsuleLineLength := capsule.capsuleLineLength;
      radius := capsule.radius;
      children := capsule.children;
    }

    /** The move constructor: every member is taken over from the argument. */
    constructor Move(capsule: BoundingCapsule)
      ensures capsuleLineLength == capsule.capsuleLineLength && radius == capsule.radius
      ensures name == capsule.name && transform == capsule.transform && children == capsule.children
    {
      capsuleLineLength := capsule.capsuleLineLength;
      radius := capsule.radius;
      name := capsule.name;
      transform := capsule.transform;
      children := capsule.children;
    }

    /** Copy and move assignment. */
    method Assign(capsule: BoundingCapsule)
      modifies this
      ensures capsuleLineLength == old(capsule.capsuleLineLength) && radius == old(capsule.radius)
      ensures name == old(capsule.name) && transform == old(capsule.transform)
      ensures children == old(capsule.children)
    {
      capsuleLineLength, radius := capsule.capsuleLineLength, capsule.radius;
      name, transform, children := capsule.name, capsule.transform, capsule.children;
    }

    /** The operand the tests see, given the transform matrix's linear part and translation. */
    function Geom(linear: Mat3, translation: Vec3, actualStart: Vec3, actualEnd: Vec3, actualRadius: real): (c: CapsuleGeom)
      reads this
      ensures c.lineLength == capsuleLineLength && c.radius == radius
      ensures c.Start() == Add(MulVec(linear, Vec3(0.0, -capsuleLineLength * 0.5, 0.0)), translation)
      ensures c.End() == Add(MulVec(linear, Vec3(0.0, capsuleLineLength * 0.5, 0.0)), translation)
    {
      CapsuleGeom(linear, translation, capsuleLineLength, radius, actualStart, actualEnd, actualRadius)
    }
  }

  // ---------------------------------------------------------------------
  // Distances to a segment
  // ---------------------------------------------------------------------

  /** 0 <= x <= X and 0 <= y <= Y give x y <= X Y. */
  lemma ProductMonotone(x: real, xMax: real, y: real, yMax: real)
    requires 0.0 <= x <= xMax && 0.0 <= y <= yMax
    ensures x * y <= xMax * yMax
  {
    MulNonNegative(x, yMax - y);
    MulNonNegative(yMax, xMax - x);
    assert x * (yMax - y) == x * yMax - x * y;
    assert yMax * (xMax - x) == xMax * yMax - x * yMax;
  }

  /** Cauchy-Schwarz: (a . b)^2 <= |a|^2 |b|^2. */
  lemma CauchySchwarz(a: Vec3, b: Vec3)
    ensures Dot(a, b) * Dot(a, b) <= Dot(a, a) * Dot(b, b)
  {
    Lagrange(a, b);
    LengthSqNonNegative(Cross(a, b));
  }

  /** |a| <= alpha and |b| <= beta bound a . b by alpha beta. */
  lemma DotBound(a: Vec3, b: Vec3, alpha: real, beta: real)
    requires alpha >= 0.0 && beta >= 0.0
    requires Dot(a, a) <= alpha * alpha && Dot(b, b) <= beta * beta
    ensures Dot(a, b) <= alpha * beta
  {
    CauchySchwarz(a, b);
    LengthSqNonNegative(a);
    LengthSqNonNegative(b);
    ProductMonotone(Dot(a, a), alpha * alpha, Dot(b, b), beta * beta);
    assert (alpha * alpha) * (beta * beta) == (alpha * beta) * (alpha * beta);
    MulNonNegative(alpha, beta);
    AlignedBoxes.SquareBound(Dot(a, b), alpha * beta);
  }

  /** The triangle inequality, squared: |a| <= total - beta and |b| <= beta give |a + b| <= total. */
  lemma TriangleSquared(a: Vec3, b: Vec3, total: real, beta: real)
    requires total - beta >= 0.0 && beta >= 0.0
    requires Dot(a, a) <= (total - beta) * (total - beta) && Dot(b, b) <= beta * beta
    ensures Dot(Add(a, b), Add(a, b)) <= total * total
  {
    DotBound(a, b, total - beta, beta);
    assert Dot(Add(a, b), Add(a, b)) == Dot(a, a) + 2.0 * Dot(a, b) + Dot(b, b);
    assert total * total == (total - beta) * (total - beta) + 2.0 * ((total - beta) * beta) + beta * beta;
  }

  /** The triangle inequality on points: x to y at most total - beta, y to z at most beta. */
  lemma DistSqTriangle(x: Vec3, y: Vec3, z: Vec3, total: real, beta: real)
    requires total - beta >= 0.0 && beta >= 0.0
    requires DistSq(x, y) <= (total - beta) * (total - beta) && DistSq(y, z) <= beta * beta
    ensures DistSq(x, z) <= total * total
  {
    assert Sub(z, x) == Add(Sub(y, x), Sub(z, y));
    TriangleSquared(Sub(y, x), Sub(z, y), total, beta);
  }

  /** (1 - u) x^2 + u y^2. */
  function ComponentMix(x: real, y: real, u: real): real {
    (1.0 - u) * (x * x) + u * (y * y)
  }

  /** (1 - u) x^2 + u y^2 exceeds p^2, p = x + u (y - x), by u (1 - u) (y - x)^2. */
  lemma ConvexComponent(x: real, y: real, u: real, p: real)
    requires 0.0 <= u <= 1.0 && p == x + u * (y - x)
    ensures p * p <= ComponentMix(x, y, u)
  {
    assert ComponentMix(x, y, u) - p * p == (u * (1.0 - u)) * ((y - x) * (y - x));
    MulNonNegative(u, 1.0 - u);
    MulNonNegative(u * (1.0 - u), (y - x) * (y - x));
  }

  lemma PointAtComponents(a: Vec3, b: Vec3, u: real)
    ensures PointAt(a, b, u) == Vec3(a.x + u * (b.x - a.x), a.y + u * (b.y - a.y), a.z + u * (b.z - a.z))
  {
    assert Scale(u, Sub(b, a)) == Vec3(u * (b.x - a.x), u * (b.y - a.y), u * (b.z - a.z));
  }

  /** |(1 - u) a + u b|^2 is at most the sum of the component mixes. */
  lemma ConvexBelowMix(a: Vec3, b: Vec3, u: real)
    requires 0.0 <= u <= 1.0
    ensures Dot(PointAt(a, b, u), PointAt(a, b, u)) <= ComponentMix(a.x, b.x, u) + ComponentMix(a.y, b.y, u) + ComponentMix(a.z, b.z, u)
  {
    var p := PointAt(a, b, u);
    PointAtComponents(a, b, u);
    ConvexComponent(a.x, b.x, u, p.x);
    ConvexComponent(a.y, b.y, u, p.y);
    ConvexComponent(a.z, b.z, u, p.z);
  }

  /** The component mixes add up to (1 - u) |a|^2 + u |b|^2. */
  lemma MixSum(a: Vec3, b: Vec3, u: real)
    ensures ComponentMix(a.x, b.x, u) + ComponentMix(a.y, b.y, u) + ComponentMix(a.z, b.z, u)
         == (1.0 - u) * Dot(a, a) + u * Dot(b, b)
  {
  }

  /** A point between two vectors of squared length at most k2 has squared length at most k2. */
  lemma ConvexLengthSq(a: Vec3, b: Vec3, u: real, k2: real)
    requires 0.0 <= u <= 1.0
    requires Dot(a, a) <= k2 && Dot(b, b) <= k2
    ensures Dot(PointAt(a, b, u), PointAt(a, b, u)) <= k2
  {
    ConvexBelowMix(a, b, u);
    MixSum(a, b, u);
    MulNonNegative(1.0 - u, k2 - Dot(a, a));
    MulNonNegative(u, k2 - Dot(b, b));
  }

  /** The difference of the points at u on two segments is the point at u on their difference. */
  lemma PointAtDifference(p1: Vec3, p2: Vec3, q1: Vec3, q2: Vec3, u: real)
    ensures Sub(PointAt(p1, p2, u), PointAt(q1, q2, u)) == PointAt(Sub(p1, q1), Sub(p2, q2), u)
  {
  }

  /** If q1 is within k2 of p1 and q2 of p2, the points at u on the two segments are too. */
  lemma ConvexDistSq(q1: Vec3, q2: Vec3, p1: Vec3, p2: Vec3, u: real, k2: real)
    requires 0.0 <= u <= 1.0
    requires DistSq(q1, p1) <= k2 && DistSq(q2, p2) <= k2
    ensures DistSq(PointAt(q1, q2, u), PointAt(p1, p2, u)) <= k2
  {
    PointAtDifference(p1, p2, q1, q2, u);
    ConvexLengthSq(Sub(p1, q1), Sub(p2, q2), u, k2);
  }

  /** A point between two points of a segment is a point of the segment. */
  lemma PointAtNested(start: Vec3, end: Vec3, u1: real, u2: real, u: real)
    requires 0.0 <= u1 <= 1.0 && 0.0 <= u2 <= 1.0 && 0.0 <= u <= 1.0
    ensures 0.0 <= u1 + u * (u2 - u1) <= 1.0
    ensures PointAt(PointAt(start, end, u1), PointAt(start, end, u2), u) == PointAt(start, end, u1 + u * (u2 - u1))
  {
    NestedParam(u1, u2, u);
    var w := u1 + u * (u2 - u1);
    var p1, p2 := PointAt(start, end, u1), PointAt(start, end, u2);
    PointAtCoords(start, end, u1);
    PointAtCoords(start, end, u2);
    PointAtCoords(start, end, w);
    PointAtCoords(p1, p2, u);
    LerpNested(start.x, end.x, u1, u2, u);
    LerpNested(start.y, end.y, u1, u2, u);
    LerpNested(start.z, end.z, u1, u2, u);
  }

  /** One coordinate of a point of a segment: s + t (e - s). */
  function Lerp(s: real, e: real, t: real): real {
    s + t * (e - s)
  }

  /** A point of a segment, coordinate by coordinate. */
  lemma PointAtCoords(a: Vec3, b: Vec3, t: real)
    ensures PointAt(a, b, t) == Vec3(Lerp(a.x, b.x, t), Lerp(a.y, b.y, t), Lerp(a.z, b.z, t))
  {
    PointAtComponents(a, b, t);
  }

  /** PointAtNested for one coordinate. */
  lemma LerpNested(s: real, e: real, u1: real, u2: real, u: real)
    ensures Lerp(Lerp(s, e, u1), Lerp(s, e, u2), u) == Lerp(s, e, u1 + u * (u2 - u1))
  {
    NestedComponent(s, e, u1, u2, u);
  }

  lemma NestedParam(u1: real, u2: real, u: real)
    requires 0.0 <= u1 <= 1.0 && 0.0 <= u2 <= 1.0 && 0.0 <= u <= 1.0
    ensures 0.0 <= u1 + u * (u2 - u1) <= 1.0
  {
    MulNonNegative(1.0 - u, u1);
    MulNonNegative(u, u2);
    MulNonNegative(1.0 - u, 1.0 - u1);
    MulNonNegative(u, 1.0 - u2);
    assert u1 + u * (u2 - u1) == (1.0 - u) * u1 + u * u2;
  }

  lemma NestedComponent(s: real, e: real, u1: real, u2: real, u: real)
    ensures (s + u1 * (e - s)) + u * ((s + u2 * (e - s)) - (s + u1 * (e - s))) == s + (u1 + u * (u2 - u1)) * (e - s)
  {
  }

  /** The squared distance to the segment is the squared distance to one of its points. */
  lemma SqDistToSegmentAttained(p: Vec3, start: Vec3, end: Vec3)
    ensures SqDistToSegment(p, start, end) == DistSq(p, PointAt(start, end, SegmentParam(p, start, end)))
  {
    ClosestPtPointSegmentOnSegment(p, start, end);
  }

  /** A point within r2 of some point of the segment is within r2 of the segment. */
  lemma NearPointOfSegment(q: Vec3, start: Vec3, end: Vec3, u: real, r2: real)
    requires 0.0 <= u <= 1.0 && DistSq(q, PointAt(start, end, u)) <= r2
    ensures SqDistToSegment(q, start, end) <= r2
  {
    ClosestPtPointSegmentIsClosest(q, start, end, u);
  }

  lemma SqDistToSegmentNonNegative(p: Vec3, start: Vec3, end: Vec3)
    ensures SqDistToSegment(p, start, end) >= 0.0
  {
    LengthSqNonNegative(Sub(ClosestPtPointSegment(p, start, end), p));
  }

  /**
   * Convexity of the distance to a segment: every point between two points
   * within k2 of the segment is within k2 of it.
   */
  lemma SegmentDistConvex(start: Vec3, end: Vec3, p1: Vec3, p2: Vec3, u: real, k2: real)
    requires 0.0 <= u <= 1.0
    requires SqDistToSegment(p1, start, end) <= k2 && SqDistToSegment(p2, start, end) <= k2
    ensures SqDistToSegment(PointAt(p1, p2, u), start, end) <= k2
  {
    var u1, u2 := SegmentParam(p1, start, end), SegmentParam(p2, start, end);
    var q1, q2 := PointAt(start, end, u1), PointAt(start, end, u2);
    SqDistToSegmentAttained(p1, start, end);
    SqDistToSegmentAttained(p2, start, end);
    DistSqSymmetric(p1, q1);
    DistSqSymmetric(p2, q2);
    ConvexDistSq(q1, q2, p1, p2, u, k2);
    PointAtNested(start, end, u1, u2, u);
    DistSqSymmetric(PointAt(q1, q2, u), PointAt(p1, p2, u));
    NearPointOfSegment(PointAt(p1, p2, u), start, end, u1 + u * (u2 - u1), k2);
  }

  /** A point within beta of a point within total - beta of the segment is within total of it. */
  lemma SegmentDistTriangle(start: Vec3, end: Vec3, p: Vec3, q: Vec3, total: real, beta: real)
    requires total - beta >= 0.0 && beta >= 0.0
    requires SqDistToSegment(p, start, end) <= (total - beta) * (total - beta) && DistSq(p, q) <= beta * beta
    ensures SqDistToSegment(q, start, end) <= total * total
  {
    var u := SegmentParam(p, start, end);
    var c := PointAt(start, end, u);
    SqDistToSegmentAttained(p, start, end);
    DistSqSymmetric(p, c);
    DistSqTriangle(c, p, q, total, beta);
    DistSqSymmetric(c, q);
    NearPointOfSegment(q, start, end, u, total * total);
  }

  /**
   * A segment from dStart to dEnd whose endpoints are within total - rd of
   * the segment from start to end, swept by rd, is within total of it.
   */
  lemma SweptWithinSwept(start: Vec3, end: Vec3, dStart: Vec3, dEnd: Vec3, total: real, rd: real, u: real, q: Vec3)
    requires total - rd >= 0.0 && rd >= 0.0 && 0.0 <= u <= 1.0
    requires SqDistToSegment(dStart, start, end) <= (total - rd) * (total - rd)
    requires SqDistToSegment(dEnd, start, end) <= (total - rd) * (total - rd)
    requires DistSq(PointAt(dStart, dEnd, u), q) <= rd * rd
    ensures SqDistToSegment(q, start, end) <= total * total
  {
    SegmentDistConvex(start, end, dStart, dEnd, u, (total - rd) * (total - rd));
    SegmentDistTriangle(start, end, PointAt(dStart, dEnd, u), q, total, rd);
  }

  /**
   * A segment whose endpoints are within total - f of center, swept by f,
   * is within total of center.
   */
  lemma SweptWithinBall(start: Vec3, end: Vec3, center: Vec3, total: real, f: real, u: real, q: Vec3)
    requires total - f >= 0.0 && f >= 0.0 && 0.0 <= u <= 1.0
    requires DistSq(center, start) <= (total - f) * (total - f) && DistSq(center, end) <= (total - f) * (total - f)
    requires DistSq(PointAt(start, end, u), q) <= f * f
    ensures DistSq(center, q) <= total * total
  {
    ConvexDistSq(center, center, start, end, u, (total - f) * (total - f));
    PointAtSame(center, u);
    DistSqTriangle(center, PointAt(start, end, u), q, total, f);
  }

  lemma PointAtSame(p: Vec3, u: real)
    ensures PointAt(p, p, u) == p
  {
    PointAtComponents(p, p, u);
  }

  /** sqrt(x) + a <= b, for x >= 0, is b - a >= 0 and x <= (b - a)^2. */
  lemma RootLeIffSquared(sqrt: real -> real, x: real, a: real, b: real)
    requires IsSqrt(sqrt) && x >= 0.0
    ensures sqrt(x) + a <= b <==> (b - a >= 0.0 && x <= (b - a) * (b - a))
  {
    LengthLeIffSquared(sqrt(x), x, a, b);
  }

  /** sqrt(x) + a <= b, for x >= 0, gives b - a >= 0 and x <= (b - a)^2. */
  lemma RootBound(sqrt: real -> real, x: real, a: real, b: real)
    requires IsSqrt(sqrt) && x >= 0.0 && sqrt(x) + a <= b
    ensures b - a >= 0.0 && x <= (b - a) * (b - a)
  {
    RootLeIffSquared(sqrt, x, a, b);
  }

  /** sqrt(|p - center|^2) + f <= r gives r - f >= 0 and |p - center| <= r - f. */
  lemma EndpointWithinBall(p: Vec3, center: Vec3, sqrt: real -> real, f: real, r: real)
    requires IsSqrt(sqrt)
    requires sqrt(Dot(Sub(p, center), Sub(p, center))) + f <= r
    ensures r - f >= 0.0 && DistSq(center, p) <= (r - f) * (r - f)
  {
    LengthSqNonNegative(Sub(p, center));
    RootBound(sqrt, Dot(Sub(p, center), Sub(p, center)), f, r);
  }

  /** The start of a segment is its own closest point on it. */
  lemma StartClosestToItself(start: Vec3, end: Vec3)
    ensures ClosestPtPointSegment(start, start, end) == start
  {
    assert Sub(start, start) == Zero;
    assert Dot(Zero, Sub(end, start)) == 0.0;
  }

  /** The end of a segment is its own closest point on it. */
  lemma EndClosestToItself(start: Vec3, end: Vec3)
    ensures ClosestPtPointSegment(end, start, end) == end
  {
    var ab := Sub(end, start);
    var t := Dot(Sub(end, start), ab);
    LengthSqNonNegative(ab);
    if t <= 0.0 {
      ZeroLengthIsZero(ab);
      SameWhenDifferenceZero(start, end);
    } else {
      assert t >= Dot(ab, ab);
    }
  }

  lemma SameWhenDifferenceZero(start: Vec3, end: Vec3)
    requires Sub(end, start) == Zero
    ensures start == end
  {
    assert end.x == start.x && end.y == start.y && end.z == start.z;
  }

  // ---------------------------------------------------------------------
  // The capsule as the tests see it
  // ---------------------------------------------------------------------

  /** The image of (radius, 0, 0) + bottom center, less the start. */
  function RadiusVectorX(c: CapsuleGeom): Vec3 {
    Sub(c.Transformed(Add(Vec3(c.radius, 0.0, 0.0), c.Bottom())), c.Start())
  }

  /** The image of (0, 0, radius) + bottom center, less the start. */
  function RadiusVectorZ(c: CapsuleGeom): Vec3 {
    Sub(c.Transformed(Add(Vec3(0.0, 0.0, c.radius), c.Bottom())), c.Start())
  }

  /** The square of the radius isEnclosedByVolume sweeps with: the longer of the two radius vectors. */
  function FinalRadiusSq(c: CapsuleGeom): real {
    var x2, z2 := Dot(RadiusVectorX(c), RadiusVectorX(c)), Dot(RadiusVectorZ(c), RadiusVectorZ(c));
    if z2 > x2 then z2 else x2
  }

  /** One row of the matrix applied to the difference of two points sharing their y and z. */
  lemma RowDifference(m0: real, m1: real, m2: real, r: real, y: real, z: real)
    ensures (m0 * (r + 0.0) + m1 * (0.0 + y) + m2 * (0.0 + z)) - (m0 * 0.0 + m1 * y + m2 * z) == m0 * r + m1 * 0.0 + m2 * 0.0
    ensures (m0 * (0.0 + 0.0) + m1 * (0.0 + y) + m2 * (r + z)) - (m0 * 0.0 + m1 * y + m2 * z) == m0 * 0.0 + m1 * 0.0 + m2 * r
  {
  }

  /**
   * The radius vectors are the images of the radius along local x and z
   * under the linear part of the transform (the translation cancels), and
   * the final radius is the longer of the two.
   */
  lemma FinalRadiusIsLongerImage(c: CapsuleGeom)
    ensures RadiusVectorX(c) == MulVec(c.linear, Vec3(c.radius, 0.0, 0.0))
    ensures RadiusVectorZ(c) == MulVec(c.linear, Vec3(0.0, 0.0, c.radius))
    ensures FinalRadiusSq(c) == Max(LengthSq(MulVec(c.linear, Vec3(c.radius, 0.0, 0.0))),
                                    LengthSq(MulVec(c.linear, Vec3(0.0, 0.0, c.radius))))
  {
    var m, b := c.linear, c.Bottom();
    RowDifference(m[0][0], m[1][0], m[2][0], c.radius, b.y, b.z);
    RowDifference(m[0][1], m[1][1], m[2][1], c.radius, b.y, b.z);
    RowDifference(m[0][2], m[1][2], m[2][2], c.radius, b.y, b.z);
  }

  lemma FinalRadiusSqNonNegative(c: CapsuleGeom)
    ensures FinalRadiusSq(c) >= 0.0
  {
    LengthSqNonNegative(RadiusVectorX(c));
  }

  // ---------------------------------------------------------------------
  // intersectsVolume
  // ---------------------------------------------------------------------

  /** Sphere: the center within radius + sphere radius of the segment (both radii local). */
  predicate IntersectsSphere(start: Vec3, end: Vec3, radius: real, center: Vec3, sphereRadius: real) {
    SqDistToSegment(center, start, end) <= (radius + sphereRadius) * (radius + sphereRadius)
  }

  /** AABB: some triangle of the box within radius of the segment. */
  predicate IntersectsAabb(start: Vec3, end: Vec3, radius: real, b: AabbGeom) {
    SomeTriangleWithin(start, end, b.Triangles(), radius * radius)
  }

  /** The AABB test as the source runs it: the minimum over the box's triangles. */
  method IntersectsAabbSteps(start: Vec3, end: Vec3, radius: real, b: AabbGeom) returns (r: bool)
    ensures r == SomeTriangleWithin(start, end, b.Triangles(), radius * radius)
  {
    var triangles := b.Triangles();
    var radius2 := radius * radius;
    r := MinTriangleDistWithin(start, end, triangles, radius2);
  }

  /** Capsule: the closest points of the two segments within the sum of the radii. */
  predicate IntersectsCapsule(start: Vec3, end: Vec3, radius: real, bStart: Vec3, bEnd: Vec3, bRadius: real) {
    SegmentsClosest(start, end, bStart, bEnd).dist2 <= (radius + bRadius) * (radius + bRadius)
  }

  /** The sphere test holds exactly when some point of the segment is within the radii's sum of the center. */
  lemma IntersectsSphereIff(start: Vec3, end: Vec3, radius: real, center: Vec3, sphereRadius: real)
    ensures IntersectsSphere(start, end, radius, center, sphereRadius) <==>
            exists u :: 0.0 <= u <= 1.0 &&
              DistSq(center, PointAt(start, end, u)) <= (radius + sphereRadius) * (radius + sphereRadius)
  {
    var r2 := (radius + sphereRadius) * (radius + sphereRadius);
    SqDistToSegmentAttained(center, start, end);
    if exists u :: 0.0 <= u <= 1.0 && DistSq(center, PointAt(start, end, u)) <= r2 {
      var u :| 0.0 <= u <= 1.0 && DistSq(center, PointAt(start, end, u)) <= r2;
      NearPointOfSegment(center, start, end, u, r2);
    }
  }

  /** When the capsule test holds, a point of each segment lies within the radii's sum of the other. */
  lemma IntersectsCapsuleWitness(start: Vec3, end: Vec3, radius: real, bStart: Vec3, bEnd: Vec3, bRadius: real)
    requires IntersectsCapsule(start, end, radius, bStart, bEnd, bRadius)
    ensures exists u, w :: 0.0 <= u <= 1.0 && 0.0 <= w <= 1.0 &&
              DistSq(PointAt(start, end, u), PointAt(bStart, bEnd, w)) <= (radius + bRadius) * (radius + bRadius)
  {
    var p := SegmentsParams(start, end, bStart, bEnd);
    assert DistSq(PointAt(start, end, p.s), PointAt(bStart, bEnd, p.t)) <= (radius + bRadius) * (radius + bRadius);
  }

  // ---------------------------------------------------------------------
  // enclosesVolume
  // ---------------------------------------------------------------------

  /** Sphere: the center's distance to the segment plus the sphere radius within the radius. */
  predicate EnclosesSphere(start: Vec3, end: Vec3, radius: real, center: Vec3, sphereRadius: real, sqrt: real -> real) {
    sqrt(SqDistToSegment(center, start, end)) + sphereRadius <= radius
  }

  /** AABB: all eight corners within radius of the segment. */
  predicate EnclosesAabb(start: Vec3, end: Vec3, radius: real, b: AabbGeom) {
    AllNearSegment(b.Corners(), start, end, radius * radius)
  }

  /** The AABB test as the source runs it: the corners in turn, false at the first one too far. */
  method EnclosesAabbSteps(start: Vec3, end: Vec3, radius: real, b: AabbGeom) returns (r: bool)
    ensures r == EnclosesAabb(start, end, radius, b)
  {
    r := CheckNearSegment(b.Corners(), start, end, radius * radius);
  }

  /** Capsule: both endpoints of the other segment, each distance plus the other radius within the radius. */
  predicate EnclosesCapsule(start: Vec3, end: Vec3, radius: real, bStart: Vec3, bEnd: Vec3, bRadius: real, sqrt: real -> real) {
    sqrt(SqDistToSegment(bStart, start, end)) + bRadius <= radius &&
    sqrt(SqDistToSegment(bEnd, start, end)) + bRadius <= radius
  }

  /** The sphere test on squared distances. */
  lemma EnclosesSphereSquared(start: Vec3, end: Vec3, radius: real, center: Vec3, sphereRadius: real, sqrt: real -> real)
    requires IsSqrt(sqrt)
    ensures EnclosesSphere(start, end, radius, center, sphereRadius, sqrt) <==>
            radius - sphereRadius >= 0.0 &&
            SqDistToSegment(center, start, end) <= (radius - sphereRadius) * (radius - sphereRadius)
  {
    SqDistToSegmentNonNegative(center, start, end);
    RootLeIffSquared(sqrt, SqDistToSegment(center, start, end), sphereRadius, radius);
  }

  /** When the sphere test holds, every point of the ball is within radius of the segment. */
  lemma EnclosesSphereHoldsBall(start: Vec3, end: Vec3, radius: real, center: Vec3, sphereRadius: real, sqrt: real -> real, q: Vec3)
    requires IsSqrt(sqrt) && EnclosesSphere(start, end, radius, center, sphereRadius, sqrt) && sphereRadius >= 0.0
    requires DistSq(center, q) <= sphereRadius * sphereRadius
    ensures SqDistToSegment(q, start, end) <= radius * radius
  {
    EnclosesSphereSquared(start, end, radius, center, sphereRadius, sqrt);
    SegmentDistTriangle(start, end, center, q, radius, sphereRadius);
  }

  /** When the AABB test holds, the box's center (the midpoint of corners 0 and 4) is within radius of the segment. */
  lemma EnclosesAabbHoldsCenter(start: Vec3, end: Vec3, radius: real, b: AabbGeom)
    requires EnclosesAabb(start, end, radius, b)
    ensures SqDistToSegment(b.center, start, end) <= radius * radius
  {
    var corners := b.Corners();
    assert SqDistToSegment(corners[0], start, end) <= radius * radius;
    assert SqDistToSegment(corners[4], start, end) <= radius * radius;
    AlignedBoxes.MinMaxAreCorners(b);
    SegmentDistConvex(start, end, b.Min(), b.Max(), 0.5, radius * radius);
    assert PointAt(b.Min(), b.Max(), 0.5) == b.center;
  }

  /** The capsule test on squared distances. */
  lemma EnclosesCapsuleSquared(start: Vec3, end: Vec3, radius: real, bStart: Vec3, bEnd: Vec3, bRadius: real, sqrt: real -> real)
    requires IsSqrt(sqrt)
    ensures EnclosesCapsule(start, end, radius, bStart, bEnd, bRadius, sqrt) <==>
            radius - bRadius >= 0.0 &&
            SqDistToSegment(bStart, start, end) <= (radius - bRadius) * (radius - bRadius) &&
            SqDistToSegment(bEnd, start, end) <= (radius - bRadius) * (radius - bRadius)
  {
    SqDistToSegmentNonNegative(bStart, start, end);
    SqDistToSegmentNonNegative(bEnd, start, end);
    RootLeIffSquared(sqrt, SqDistToSegment(bStart, start, end), bRadius, radius);
    RootLeIffSquared(sqrt, SqDistToSegment(bEnd, start, end), bRadius, radius);
  }

  /**
   * When the capsule test holds, the other capsule lies inside: every point
   * within its radius of a point of its segment is within radius of this
   * segment.
   */
  lemma EnclosesCapsuleHoldsCapsule(start: Vec3, end: Vec3, radius: real, bStart: Vec3, bEnd: Vec3, bRadius: real, sqrt: real -> real, u: real, q: Vec3)
    requires IsSqrt(sqrt) && EnclosesCapsule(start, end, radius, bStart, bEnd, bRadius, sqrt) && bRadius >= 0.0 && 0.0 <= u <= 1.0
    requires DistSq(PointAt(bStart, bEnd, u), q) <= bRadius * bRadius
    ensures SqDistToSegment(q, start, end) <= radius * radius
  {
    EnclosesCapsuleBounds(start, end, radius, bStart, bEnd, bRadius, sqrt);
    SweptWithinSwept(start, end, bStart, bEnd, radius, bRadius, u, q);
  }

  /** The squared bounds the capsule test gives on the other segment's endpoints. */
  lemma EnclosesCapsuleBounds(start: Vec3, end: Vec3, radius: real, bStart: Vec3, bEnd: Vec3, bRadius: real, sqrt: real -> real)
    requires IsSqrt(sqrt) && EnclosesCapsule(start, end, radius, bStart, bEnd, bRadius, sqrt)
    ensures radius - bRadius >= 0.0
    ensures SqDistToSegment(bStart, start, end) <= (radius - bRadius) * (radius - bRadius)
    ensures SqDistToSegment(bEnd, start, end) <= (radius - bRadius) * (radius - bRadius)
  {
    EnclosesCapsuleSquared(start, end, radius, bStart, bEnd, bRadius, sqrt);
  }

  // ---------------------------------------------------------------------
  // isEnclosedByVolume
  // ---------------------------------------------------------------------

  /** Sphere: both endpoints' closest points on the segment, distance to the center plus the final radius within the sphere radius. */
  predicate IsEnclosedBySphere(start: Vec3, end: Vec3, finalRadiusSq: real, center: Vec3, sphereRadius: real, sqrt: real -> real) {
    var finalRadius := sqrt(finalRadiusSq);
    var diff1 := Sub(ClosestPtPointSegment(start, start, end), center);
    var diff2 := Sub(ClosestPtPointSegment(end, start, end), center);
    sqrt(Dot(diff1, diff1)) + finalRadius <= sphereRadius && sqrt(Dot(diff2, diff2)) + finalRadius <= sphereRadius
  }

  /** AABB: the cubes of half side the final radius around both endpoints inside the box. */
  predicate IsEnclosedByAabb(start: Vec3, end: Vec3, finalRadiusSq: real, b: AabbGeom, sqrt: real -> real) {
    var finalRadius := sqrt(finalRadiusSq);
    AlignedBoxes.IntervalsWithin(Sub(start, Splat(finalRadius)), Add(start, Splat(finalRadius)), b.Min(), b.Max()) &&
    AlignedBoxes.IntervalsWithin(Sub(end, Splat(finalRadius)), Add(end, Splat(finalRadius)), b.Min(), b.Max())
  }

  /** The AABB test as the source runs it: the per-axis comparisons for the start, then for the end. */
  method IsEnclosedByAabbSteps(start: Vec3, end: Vec3, finalRadiusSq: real, b: AabbGeom, sqrt: real -> real) returns (r: bool)
    ensures r == IsEnclosedByAabb(start, end, finalRadiusSq, b, sqrt)
  {
    var finalRadius := sqrt(finalRadiusSq);
    var bMin, bMax := b.Min(), b.Max();
    r := AlignedBoxes.CheckIntervalsWithin(bMin, bMax, Sub(start, Splat(finalRadius)), Add(start, Splat(finalRadius)));
    if r {
      r := AlignedBoxes.CheckIntervalsWithin(bMin, bMax, Sub(end, Splat(finalRadius)), Add(end, Splat(finalRadius)));
    }
  }

  /** Capsule: both own endpoints, distance to the other segment plus the own radius within the other radius. */
  predicate IsEnclosedByCapsule(start: Vec3, end: Vec3, radius: real, bStart: Vec3, bEnd: Vec3, bRadius: real, sqrt: real -> real) {
    sqrt(SqDistToSegment(start, bStart, bEnd)) + radius <= bRadius &&
    sqrt(SqDistToSegment(end, bStart, bEnd)) + radius <= bRadius
  }

  /** The capsule-in-capsule test from either side is the same test. */
  lemma IsEnclosedByCapsuleDual(start: Vec3, end: Vec3, radius: real, bStart: Vec3, bEnd: Vec3, bRadius: real, sqrt: real -> real)
    ensures IsEnclosedByCapsule(start, end, radius, bStart, bEnd, bRadius, sqrt) == EnclosesCapsule(bStart, bEnd, bRadius, start, end, radius, sqrt)
  {
  }

  /**
   * When the sphere test holds, the segment swept with the final radius is
   * inside: every point within that radius of a point of the segment is in
   * the sphere.
   */
  lemma IsEnclosedBySphereHoldsCapsule(start: Vec3, end: Vec3, finalRadiusSq: real, center: Vec3, sphereRadius: real, sqrt: real -> real, u: real, q: Vec3)
    requires IsSqrt(sqrt) && IsEnclosedBySphere(start, end, finalRadiusSq, center, sphereRadius, sqrt) && finalRadiusSq >= 0.0 && 0.0 <= u <= 1.0
    requires DistSq(PointAt(start, end, u), q) <= finalRadiusSq
    ensures DistSq(center, q) <= sphereRadius * sphereRadius
  {
    hide *;
    IsEnclosedBySphereBounds(start, end, finalRadiusSq, center, sphereRadius, sqrt);
    SweptWithinBall(start, end, center, sphereRadius, sqrt(finalRadiusSq), u, q);
  }

  /** The squared bounds the sphere test gives on the segment's endpoints. */
  lemma IsEnclosedBySphereBounds(start: Vec3, end: Vec3, finalRadiusSq: real, center: Vec3, sphereRadius: real, sqrt: real -> real)
    requires IsSqrt(sqrt) && IsEnclosedBySphere(start, end, finalRadiusSq, center, sphereRadius, sqrt) && finalRadiusSq >= 0.0
    ensures sqrt(finalRadiusSq) >= 0.0 && sqrt(finalRadiusSq) * sqrt(finalRadiusSq) == finalRadiusSq
    ensures sphereRadius - sqrt(finalRadiusSq) >= 0.0
    ensures DistSq(center, start) <= (sphereRadius - sqrt(finalRadiusSq)) * (sphereRadius - sqrt(finalRadiusSq))
    ensures DistSq(center, end) <= (sphereRadius - sqrt(finalRadiusSq)) * (sphereRadius - sqrt(finalRadiusSq))
  {
    var finalRadius := sqrt(finalRadiusSq);
    StartClosestToItself(start, end);
    EndClosestToItself(start, end);
    EndpointWithinBall(start, center, sqrt, finalRadius, sphereRadius);
    EndpointWithinBall(end, center, sqrt, finalRadius, sphereRadius);
  }

  /** a + u (b - a) with u in [0, 1] lies between a and b. */
  lemma LerpBetween(a: real, b: real, u: real)
    requires 0.0 <= u <= 1.0
    ensures var p := a + u * (b - a); (a <= p <= b) || (b <= p <= a)
  {
    if a <= b {
      MulNonNegative(u, b - a);
      MulNonNegative(1.0 - u, b - a);
    } else {
      MulNonNegative(u, a - b);
      MulNonNegative(1.0 - u, a - b);
    }
  }

  /** A gap whose square is at most f * f, f >= 0, lies in [-f, f]. */
  lemma GapWithin(p: real, v: real, f: real, d2: real)
    requires f >= 0.0 && Square(v - p) <= d2 && d2 <= f * f
    ensures -f <= v - p <= f
  {
    AlignedBoxes.SquareBound(v - p, f);
  }

  /**
   * When the AABB test holds, the segment swept with the final radius is
   * inside the box: every point within that radius of a point of the
   * segment is within [bMin, bMax].
   */
  lemma IsEnclosedByAabbHoldsCapsule(start: Vec3, end: Vec3, finalRadiusSq: real, b: AabbGeom, sqrt: real -> real, u: real, q: Vec3)
    requires IsSqrt(sqrt) && IsEnclosedByAabb(start, end, finalRadiusSq, b, sqrt) && finalRadiusSq >= 0.0 && 0.0 <= u <= 1.0
    requires DistSq(PointAt(start, end, u), q) <= finalRadiusSq
    ensures AlignedBoxes.InBounds(q, b.Min(), b.Max())
  {
    SweptWithinBox(start, end, sqrt(finalRadiusSq), b.Min(), b.Max(), u, q);
  }

  /** IsEnclosedByAabbHoldsCapsule on the box's bounds and the final radius. */
  lemma SweptWithinBox(start: Vec3, end: Vec3, f: real, lo: Vec3, hi: Vec3, u: real, q: Vec3)
    requires f >= 0.0 && 0.0 <= u <= 1.0
    requires AlignedBoxes.IntervalsWithin(Sub(start, Splat(f)), Add(start, Splat(f)), lo, hi)
    requires AlignedBoxes.IntervalsWithin(Sub(end, Splat(f)), Add(end, Splat(f)), lo, hi)
    requires DistSq(PointAt(start, end, u), q) <= f * f
    ensures AlignedBoxes.InBounds(q, lo, hi)
  {
    var p := PointAt(start, end, u);
    forall i | 0 <= i < 3
      ensures At(lo, i) <= At(q, i) <= At(hi, i)
    {
      OffsetAt(start, f, i);
      OffsetAt(end, f, i);
      GapAt(p, q, i);
      GapWithin(At(p, i), At(q, i), f, DistSq(p, q));
      PointAtBetween(start, end, u, i);
    }
    assert At(lo, 0) <= At(q, 0) <= At(hi, 0);
    assert At(lo, 1) <= At(q, 1) <= At(hi, 1);
    assert At(lo, 2) <= At(q, 2) <= At(hi, 2);
  }

  /** Component i of v -/+ (f, f, f). */
  lemma OffsetAt(v: Vec3, f: real, i: nat)
    requires i < 3
    ensures At(Sub(v, Splat(f)), i) == At(v, i) - f && At(Add(v, Splat(f)), i) == At(v, i) + f
  {
  }

  /** The squared gap on any one axis is at most the squared distance. */
  lemma GapAt(p: Vec3, q: Vec3, i: nat)
    requires i < 3
    ensures Square(At(q, i) - At(p, i)) <= DistSq(p, q)
  {
    AlignedBoxes.GapsBelowDistance(p, q);
  }

  /** Component i of a point of the segment lies between the endpoints' components. */
  lemma PointAtBetween(start: Vec3, end: Vec3, u: real, i: nat)
    requires i < 3 && 0.0 <= u <= 1.0
    ensures var c := At(PointAt(start, end, u), i);
      (At(start, i) <= c <= At(end, i)) || (At(end, i) <= c <= At(start, i))
  {
    PointAtComponents(start, end, u);
    LerpBetween(At(start, i), At(end, i), u);
  }

  // ---------------------------------------------------------------------
  // Dispatch
  // ---------------------------------------------------------------------

  /**
   * The capsule answers for spheres, boxes and capsules, taking its
   * segment from its own transform and the other capsule's from that
   * capsule's, and hands oriented boxes over to the other operand
   * (enclosesVolume to its isEnclosedByVolume and the reverse).
   */
  function CapsuleReply(q: Query, c: CapsuleGeom, other: Volume, sqrt: real -> real): (r: Reply)
    ensures r == Delegate <==> other.ObbVolume?
  {
    var start, end := c.Start(), c.End();
    match other
    case SphereVolume(s) =>
      Answer(match q
             case Intersects => IntersectsSphere(start, end, c.radius, s.center, s.radius)
             case Encloses => EnclosesSphere(start, end, c.radius, s.center, s.radius, sqrt)
             case IsEnclosedBy => IsEnclosedBySphere(start, end, FinalRadiusSq(c), s.center, s.radius, sqrt))
    case AabbVolume(b) =>
      Answer(match q
             case Intersects => IntersectsAabb(start, end, c.radius, b)
             case Encloses => EnclosesAabb(start, end, c.radius, b)
             case IsEnclosedBy => IsEnclosedByAabb(start, end, FinalRadiusSq(c), b, sqrt))
    case CapsuleVolume(d) =>
      Answer(match q
             case Intersects => IntersectsCapsule(start, end, c.radius, d.Start(), d.End(), d.radius)
             case Encloses => EnclosesCapsule(start, end, c.radius, d.Start(), d.End(), d.radius, sqrt)
             case IsEnclosedBy => IsEnclosedByCapsule(start, end, c.radius, d.Start(), d.End(), d.radius, sqrt))
    case ObbVolume(_) => Delegate
  }
}
