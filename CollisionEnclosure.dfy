// The collision detector's enclosure tests for a sphere or a capsule as
// the enclosing volume (CollisionDetector::isSphereEnclosing* and
// isCapsuleEnclosing*). Each compares distances with radii up to
// GeometryUtils::epsilon; the lemmas say what a passing test guarantees
// about the enclosed volume's points. The sphere-sphere test reads its
// radii the other way round from the rest: it holds when the FIRST
// sphere lies inside the second.

module Enclosures {
  import opened Vectors
  import opened GeometryUtils
  import opened Volumes
  import opened ObbEnclosure
  import Capsules
  import Collisions

  // ---------------------------------------------------------------------
  // A sphere around a sphere
  // ---------------------------------------------------------------------

  /** isSphereEnclosingSphere as written: |c1 - c2| + r1 - r2 <= epsilon. */
  predicate SphereEnclosingSphere(s1: SphereGeom, s2: SphereGeom, sqrt: real -> real) {
    var diff := Sub(s1.center, s2.center);
    sqrt(Dot(diff, diff)) + s1.WorldRadius() - s2.WorldRadius() <= Epsilon
  }

  /** The same test with the radii in the roles the capsule and box branches give them: |c1 - c2| + r2 - r1 <= epsilon. */
  predicate SphereEnclosingSphereCorrected(s1: SphereGeom, s2: SphereGeom, sqrt: real -> real) {
    var diff := Sub(s1.center, s2.center);
    sqrt(Dot(diff, diff)) + s2.WorldRadius() - s1.WorldRadius() <= Epsilon
  }

  /** The test on squared distances: the centers at most r2 + epsilon - r1 apart. */
  lemma SphereEnclosingSphereSquared(s1: SphereGeom, s2: SphereGeom, sqrt: real -> real)
    requires IsSqrt(sqrt)
    ensures var m := s2.WorldRadius() + Epsilon - s1.WorldRadius();
            SphereEnclosingSphere(s1, s2, sqrt) <==> m >= 0.0 && DistSq(s2.center, s1.center) <= m * m
  {
    RootTestSquared(sqrt, s1.center, s2.center, s1.WorldRadius(), s2.WorldRadius());
  }

  /** sqrt(|c1 - c2|^2) + r1 - r2 <= epsilon, on plain points and radii, in squared form. */
  lemma RootTestSquared(sqrt: real -> real, c1: Vec3, c2: Vec3, r1: real, r2: real)
    requires IsSqrt(sqrt)
    ensures var m := r2 + Epsilon - r1;
            sqrt(Dot(Sub(c1, c2), Sub(c1, c2))) + r1 - r2 <= Epsilon <==> m >= 0.0 && DistSq(c2, c1) <= m * m
  {
    var diff := Sub(c1, c2);
    assert Dot(diff, diff) == DistSq(c2, c1);
    LengthSqNonNegative(diff);
    Capsules.RootLeIffSquared(sqrt, Dot(diff, diff), r1, r2 + Epsilon);
  }

  /** When the test holds, every point of the first ball lies within r2 + epsilon of the second center. */
  lemma SphereEnclosingSphereHoldsBall(s1: SphereGeom, s2: SphereGeom, sqrt: real -> real, q: Vec3)
    requires IsSqrt(sqrt) && SphereEnclosingSphere(s1, s2, sqrt) && s1.WorldRadius() >= 0.0
    requires DistSq(s1.center, q) <= s1.WorldRadius() * s1.WorldRadius()
    ensures DistSq(s2.center, q) <= (s2.WorldRadius() + Epsilon) * (s2.WorldRadius() + Epsilon)
  {
    RootBallInBall(sqrt, s1.center, s1.WorldRadius(), s2.center, s2.WorldRadius(), q);
  }

  /** sqrt(|c1 - c2|^2) + r1 - r2 <= epsilon: the ball of radius r1 around c1 lies in the ball of radius r2 + epsilon around c2. */
  lemma RootBallInBall(sqrt: real -> real, c1: Vec3, r1: real, c2: Vec3, r2: real, q: Vec3)
    requires IsSqrt(sqrt) && r1 >= 0.0
    requires sqrt(Dot(Sub(c1, c2), Sub(c1, c2))) + r1 - r2 <= Epsilon
    requires DistSq(c1, q) <= r1 * r1
    ensures DistSq(c2, q) <= (r2 + Epsilon) * (r2 + Epsilon)
  {
    var diff := Sub(c1, c2);
    assert Dot(diff, diff) == DistSq(c2, c1);
    LengthSqNonNegative(diff);
    Capsules.RootLeIffSquared(sqrt, Dot(diff, diff), r1, r2 + Epsilon);
    Capsules.DistSqTriangle(c2, c1, q, r2 + Epsilon, r1);
  }

  /** The corrected test is the written one with the operands exchanged. */
  lemma SphereEnclosingSphereCorrectedDual(s1: SphereGeom, s2: SphereGeom, sqrt: real -> real)
    ensures SphereEnclosingSphereCorrected(s1, s2, sqrt) == SphereEnclosingSphere(s2, s1, sqrt)
  {
    var d, e := Sub(s1.center, s2.center), Sub(s2.center, s1.center);
    assert Dot(e, e) == Dot(d, d);
  }

  /** When the corrected test holds, every point of the second ball lies within r1 + epsilon of the first center. */
  lemma SphereEnclosingSphereCorrectedHoldsBall(s1: SphereGeom, s2: SphereGeom, sqrt: real -> real, q: Vec3)
    requires IsSqrt(sqrt) && SphereEnclosingSphereCorrected(s1, s2, sqrt) && s2.WorldRadius() >= 0.0
    requires DistSq(s2.center, q) <= s2.WorldRadius() * s2.WorldRadius()
    ensures DistSq(s1.center, q) <= (s1.WorldRadius() + Epsilon) * (s1.WorldRadius() + Epsilon)
  {
    SphereEnclosingSphereCorrectedDual(s1, s2, sqrt);
    SphereEnclosingSphereHoldsBall(s2, s1, sqrt, q);
  }

  /**
   * Two concentric spheres, the first wider than the second by more than
   * epsilon: the first holds every point of the second, yet the test as
   * written rejects them, while the corrected test accepts them.
   */
  lemma SphereEnclosingSphereReversed(s1: SphereGeom, s2: SphereGeom, sqrt: real -> real, q: Vec3)
    requires sqrt(0.0) == 0.0 && s1.center == s2.center
    requires s2.WorldRadius() >= 0.0 && s1.WorldRadius() > s2.WorldRadius() + Epsilon
    ensures !SphereEnclosingSphere(s1, s2, sqrt) && SphereEnclosingSphereCorrected(s1, s2, sqrt)
    ensures DistSq(s2.center, q) <= s2.WorldRadius() * s2.WorldRadius() ==>
            DistSq(s1.center, q) <= s1.WorldRadius() * s1.WorldRadius()
  {
    ConcentricTests(s1, s2, sqrt);
    ConcentricSpheres(s1, s2, q);
  }

  /** Concentric spheres, the first wider by more than epsilon: the written test fails, the corrected one holds. */
  lemma ConcentricTests(s1: SphereGeom, s2: SphereGeom, sqrt: real -> real)
    requires sqrt(0.0) == 0.0 && s1.center == s2.center
    requires s1.WorldRadius() > s2.WorldRadius() + Epsilon
    ensures !SphereEnclosingSphere(s1, s2, sqrt) && SphereEnclosingSphereCorrected(s1, s2, sqrt)
  {
    ZeroOffsetRoot(sqrt, Sub(s1.center, s2.center));
  }

  /** Concentric spheres, the first the wider: the first holds every point of the second. */
  lemma ConcentricSpheres(s1: SphereGeom, s2: SphereGeom, q: Vec3)
    requires s1.center == s2.center
    requires s2.WorldRadius() >= 0.0 && s1.WorldRadius() > s2.WorldRadius()
    ensures DistSq(s2.center, q) <= s2.WorldRadius() * s2.WorldRadius() ==>
            DistSq(s1.center, q) <= s1.WorldRadius() * s1.WorldRadius()
  {
    ConcentricBalls(s1.center, s2.center, s1.WorldRadius(), s2.WorldRadius(), q);
  }

  /** Concentric balls, the first the wider: the first holds every point of the second. */
  lemma ConcentricBalls(c1: Vec3, c2: Vec3, r1: real, r2: real, q: Vec3)
    requires c1 == c2 && r2 >= 0.0 && r1 > r2
    ensures DistSq(c2, q) <= r2 * r2 ==> DistSq(c1, q) <= r1 * r1
  {
    if DistSq(c2, q) <= r2 * r2 {
      Capsules.ProductMonotone(r2, r1, r2, r1);
    }
  }

  /** A zero offset has root length zero. */
  lemma ZeroOffsetRoot(sqrt: real -> real, d: Vec3)
    requires sqrt(0.0) == 0.0 && d == Zero
    ensures sqrt(Dot(d, d)) == 0.0
  {
    assert Dot(d, d) == 0.0;
  }

  // ---------------------------------------------------------------------
  // A sphere around a capsule or a box
  // ---------------------------------------------------------------------

  /** The point of a segment closest to either of its own ends is that end. */
  lemma SegmentEndsAreOwnClosest(start: Vec3, end: Vec3)
    ensures ClosestPtPointSegment(start, start, end) == start
    ensures ClosestPtPointSegment(end, start, end) == end
  {
    var ab := Sub(end, start);
    if Dot(ab, ab) <= 0.0 {
      LengthSqNonNegative(ab);
      ZeroLengthIsZero(ab);
      ZeroOffset(start, end);
    }
  }

  /** end - start = 0 puts end at start. */
  lemma ZeroOffset(start: Vec3, end: Vec3)
    requires Sub(end, start) == Zero
    ensures end == start
  {
  }

  /**
   * isSphereEnclosingCapsule: each end of the capsule's line (found as the
   * line's closest point to that end) within the sphere's radius less the
   * capsule's, up to epsilon.
   */
  predicate SphereEnclosingCapsule(s: SphereGeom, k: CapsuleGeom, sqrt: real -> real) {
    var start, end := k.actualStart, k.actualEnd;
    var diff1 := Sub(ClosestPtPointSegment(start, start, end), s.center);
    var diff2 := Sub(ClosestPtPointSegment(end, start, end), s.center);
    sqrt(Dot(diff1, diff1)) + k.actualRadius - s.WorldRadius() <= Epsilon &&
    sqrt(Dot(diff2, diff2)) + k.actualRadius - s.WorldRadius() <= Epsilon
  }

  /** The test on squared distances: both ends of the line at most rs + epsilon - rk from the center. */
  lemma SphereEnclosingCapsuleSquared(s: SphereGeom, k: CapsuleGeom, sqrt: real -> real)
    requires IsSqrt(sqrt)
    ensures var m := s.WorldRadius() + Epsilon - k.actualRadius;
            SphereEnclosingCapsule(s, k, sqrt) <==>
            m >= 0.0 && DistSq(k.actualStart, s.center) <= m * m && DistSq(k.actualEnd, s.center) <= m * m
  {
    EndsWithinSquared(sqrt, k.actualStart, k.actualEnd, s.center, k.actualRadius, s.WorldRadius());
  }

  /** SphereEnclosingCapsuleSquared on plain points and radii. */
  lemma EndsWithinSquared(sqrt: real -> real, start: Vec3, end: Vec3, c: Vec3, rk: real, rs: real)
    requires IsSqrt(sqrt)
    ensures var m := rs + Epsilon - rk;
            var diff1 := Sub(ClosestPtPointSegment(start, start, end), c);
            var diff2 := Sub(ClosestPtPointSegment(end, start, end), c);
            (sqrt(Dot(diff1, diff1)) + rk - rs <= Epsilon && sqrt(Dot(diff2, diff2)) + rk - rs <= Epsilon) <==>
            m >= 0.0 && DistSq(start, c) <= m * m && DistSq(end, c) <= m * m
  {
    SegmentEndsAreOwnClosest(start, end);
    EndWithinSquared(sqrt, start, c, rk, rs);
    EndWithinSquared(sqrt, end, c, rk, rs);
  }

  /** sqrt(|p - c|^2) + rk - rs <= epsilon, in squared form. */
  lemma EndWithinSquared(sqrt: real -> real, p: Vec3, c: Vec3, rk: real, rs: real)
    requires IsSqrt(sqrt)
    ensures var m := rs + Epsilon - rk;
            sqrt(Dot(Sub(p, c), Sub(p, c))) + rk - rs <= Epsilon <==> m >= 0.0 && DistSq(p, c) <= m * m
  {
    var diff := Sub(p, c);
    Volumes.DistSqSymmetric(p, c);
    LengthSqNonNegative(diff);
    Capsules.RootLeIffSquared(sqrt, Dot(diff, diff), rk, rs + Epsilon);
  }

  /** Against a segment shrunk to the point c, the squared distance is the squared distance to c. */
  lemma PointSegment(c: Vec3, p: Vec3)
    ensures SqDistToSegment(p, c, c) == DistSq(p, c) == Dot(Sub(p, c), Sub(p, c))
  {
  }

  /**
   * When the test holds, every point of the capsule (within rk of a point
   * of its line) lies within rs + epsilon of the sphere's center.
   */
  lemma SphereEnclosingCapsuleHoldsCapsule(s: SphereGeom, k: CapsuleGeom, sqrt: real -> real, u: real, q: Vec3)
    requires IsSqrt(sqrt) && SphereEnclosingCapsule(s, k, sqrt) && k.actualRadius >= 0.0 && 0.0 <= u <= 1.0
    requires DistSq(PointAt(k.actualStart, k.actualEnd, u), q) <= k.actualRadius * k.actualRadius
    ensures DistSq(q, s.center) <= Square(s.WorldRadius() + Epsilon)
  {
    RootSweptInBall(sqrt, k.actualStart, k.actualEnd, s.center, k.actualRadius, s.WorldRadius(), u, q);
  }

  /**
   * Both ends a and b of a segment (each found as the segment's closest
   * point to it) within rs - r of c up to epsilon: every point within r of
   * a point of the segment is within rs + epsilon of c.
   */
  lemma RootSweptInBall(sqrt: real -> real, a: Vec3, b: Vec3, c: Vec3, r: real, rs: real, u: real, q: Vec3)
    requires IsSqrt(sqrt) && r >= 0.0 && 0.0 <= u <= 1.0
    requires var d1 := Sub(ClosestPtPointSegment(a, a, b), c); sqrt(Dot(d1, d1)) + r - rs <= Epsilon
    requires var d2 := Sub(ClosestPtPointSegment(b, a, b), c); sqrt(Dot(d2, d2)) + r - rs <= Epsilon
    requires DistSq(PointAt(a, b, u), q) <= r * r
    ensures DistSq(q, c) <= Square(rs + Epsilon)
  {
    SegmentEndsAreOwnClosest(a, b);
    RootEnd(sqrt, a, c, r, rs + Epsilon);
    RootEnd(sqrt, b, c, r, rs + Epsilon);
    SweptInBall(a, b, c, r, rs + Epsilon, u, q);
  }

  /** sqrt(|p - c|^2) + r - R <= 0 on squared distances. */
  lemma RootEnd(sqrt: real -> real, p: Vec3, c: Vec3, r: real, R: real)
    requires IsSqrt(sqrt) && sqrt(Dot(Sub(p, c), Sub(p, c))) + r <= R
    ensures R - r >= 0.0 && Dot(Sub(p, c), Sub(p, c)) <= (R - r) * (R - r)
  {
    LengthSqNonNegative(Sub(p, c));
    Capsules.RootBound(sqrt, Dot(Sub(p, c), Sub(p, c)), r, R);
  }

  /** Both ends of a segment within R - r of c: every point within r of the segment is within R of c. */
  lemma SweptInBall(a: Vec3, b: Vec3, c: Vec3, r: real, R: real, u: real, q: Vec3)
    requires r >= 0.0 && R - r >= 0.0 && 0.0 <= u <= 1.0
    requires Dot(Sub(a, c), Sub(a, c)) <= (R - r) * (R - r) && Dot(Sub(b, c), Sub(b, c)) <= (R - r) * (R - r)
    requires DistSq(PointAt(a, b, u), q) <= r * r
    ensures DistSq(q, c) <= Square(R)
  {
    PointSegment(c, a);
    PointSegment(c, b);
    PointSegment(c, q);
    Capsules.SweptWithinSwept(c, c, a, b, R, r, u, q);
  }

  /** The engine's `dot(diff, diff) - radius2 > epsilon` failing: diff within the squared radius up to epsilon. */
  predicate NearOrigin(diff: Vec3, radius2: real) {
    Dot(diff, diff) - radius2 <= Epsilon
  }

  /** The test points -xLen - yLen - zLen, ... of the box branches: the corners less the center. */
  function CornerOffsets(o: ObbGeom): (ps: seq<Vec3>)
    ensures |ps| == 8
  {
    BoxCorners(Zero, o.EdgeX(), o.EdgeY(), o.EdgeZ())
  }

  /**
   * isSphereEnclosingOBB: every corner offset, moved by t = center - sphere
   * center, within the sphere's squared radius up to epsilon.
   */
  predicate SphereEnclosingObb(s: SphereGeom, o: ObbGeom) {
    AllNearOrigin(CornerOffsets(o), Sub(o.center, s.center), Square(s.WorldRadius()))
  }

  /** Every offset, moved by t, within the squared radius up to epsilon. */
  predicate AllNearOrigin(offs: seq<Vec3>, t: Vec3, radius2: real) {
    forall k :: 0 <= k < |offs| ==> NearOrigin(Add(offs[k], t), radius2)
  }

  /** The loop over the test points, false at the first one too far away. */
  method SphereEnclosingObbSteps(s: SphereGeom, o: ObbGeom) returns (b: bool)
    ensures b == SphereEnclosingObb(s, o)
  {
    var testPoints := CornerOffsets(o);
    var t := Sub(o.center, s.center);
    var bRadius := s.WorldRadius();
    var radius2 := Square(bRadius);
    b := CheckNearOrigin(testPoints, t, radius2);
  }

  /** The loop itself: false at the first offset that, moved by t, lies too far out. */
  method CheckNearOrigin(offs: seq<Vec3>, t: Vec3, radius2: real) returns (b: bool)
    ensures b == AllNearOrigin(offs, t, radius2)
  {
    for i := 0 to |offs|
      invariant forall k :: 0 <= k < i ==> NearOrigin(Add(offs[k], t), radius2)
    {
      var diff := Add(offs[i], t);
      if Dot(diff, diff) - radius2 > Epsilon {
        return false;
      }
    }
    return true;
  }

  /** An offset moved by t is the corner less the sphere center. */
  lemma CornerOffsetMoved(o: ObbGeom, c: Vec3, k: nat)
    requires k < 8
    ensures Add(CornerOffsets(o)[k], Sub(o.center, c)) == Sub(o.Corners()[k], c)
  {
    var s := CornerSigns()[k];
    assert CornerOffsets(o)[k] == Vertex(Zero, o.EdgeX(), o.EdgeY(), o.EdgeZ(), s);
    assert o.Corners()[k] == Vertex(o.center, o.EdgeX(), o.EdgeY(), o.EdgeZ(), s);
  }

  /** The test holds exactly when every corner of the box is within the squared radius plus epsilon of the center. */
  lemma SphereEnclosingObbIff(s: SphereGeom, o: ObbGeom)
    ensures SphereEnclosingObb(s, o) <==> AllWithinRadius(o.Corners(), s.center, Square(s.WorldRadius()) + Epsilon)
  {
    CornerOffsetsMoved(o, s.center);
    MovedWithinIff(CornerOffsets(o), o.Corners(), Sub(o.center, s.center), s.center, Square(s.WorldRadius()));
  }

  /** Every corner offset moved by center - c is the corner less c. */
  lemma CornerOffsetsMoved(o: ObbGeom, c: Vec3)
    ensures MovedOnto(CornerOffsets(o), o.Corners(), Sub(o.center, c), c)
  {
    forall k | 0 <= k < 8
      ensures Add(CornerOffsets(o)[k], Sub(o.center, c)) == Sub(o.Corners()[k], c)
    {
      CornerOffsetMoved(o, c, k);
    }
  }

  /** The offsets, moved by t, are the points less c. */
  predicate MovedOnto(offs: seq<Vec3>, pts: seq<Vec3>, t: Vec3, c: Vec3) {
    |offs| == |pts| && forall k :: 0 <= k < |offs| ==> Add(offs[k], t) == Sub(pts[k], c)
  }

  /** Offsets that, moved by t, are the points less c are near the origin exactly when the points are near c. */
  lemma MovedWithinIff(offs: seq<Vec3>, pts: seq<Vec3>, t: Vec3, c: Vec3, radius2: real)
    requires MovedOnto(offs, pts, t, c)
    ensures AllNearOrigin(offs, t, radius2) <==> AllWithinRadius(pts, c, radius2 + Epsilon)
  {
    forall k | 0 <= k < |offs|
      ensures NearOrigin(Add(offs[k], t), radius2) <==> Dot(Sub(pts[k], c), Sub(pts[k], c)) <= radius2 + Epsilon
    {
      assert Add(offs[k], t) == Sub(pts[k], c);
    }
  }

  /** A box the sphere encloses by the box's own isEnclosedByVolume passes the detector's test. */
  lemma SphereEnclosingObbFromBox(s: SphereGeom, o: ObbGeom)
    requires IsEnclosedBySphere(o, s)
    ensures SphereEnclosingObb(s, o)
  {
    var pts, r2 := o.Corners(), Square(s.WorldRadius());
    forall k | 0 <= k < 8
      ensures Dot(Sub(pts[k], s.center), Sub(pts[k], s.center)) <= r2 + Epsilon
    {
      assert Dot(Sub(pts[k], s.center), Sub(pts[k], s.center)) <= r2;
    }
    SphereEnclosingObbIff(s, o);
  }

  /** When the test holds, the box's center is within the squared radius plus epsilon of the sphere's. */
  lemma SphereEnclosingObbHoldsCenter(s: SphereGeom, o: ObbGeom)
    requires SphereEnclosingObb(s, o)
    ensures DistSq(s.center, o.center) <= Square(s.WorldRadius()) + Epsilon
  {
    var pts, r2 := o.Corners(), Square(s.WorldRadius()) + Epsilon;
    SphereEnclosingObbIff(s, o);
    var e := Add(Add(o.EdgeX(), o.EdgeY()), o.EdgeZ());
    OppositeCorners(o.center, o.EdgeX(), o.EdgeY(), o.EdgeZ());
    assert Dot(Sub(pts[0], s.center), Sub(pts[0], s.center)) <= r2;
    assert Dot(Sub(pts[4], s.center), Sub(pts[4], s.center)) <= r2;
    WithinRadiusMidpoint(o.center, e, s.center, r2);
  }

  // ---------------------------------------------------------------------
  // A capsule around a sphere, a capsule or a box
  // ---------------------------------------------------------------------

  /** isCapsuleEnclosingSphere: the center's distance to the line plus the sphere's radius within the capsule's, up to epsilon. */
  predicate CapsuleEnclosingSphere(k: CapsuleGeom, s: SphereGeom, sqrt: real -> real) {
    var diff := Sub(ClosestPtPointSegment(s.center, k.actualStart, k.actualEnd), s.center);
    sqrt(Dot(diff, diff)) + s.WorldRadius() - k.actualRadius <= Epsilon
  }

  /** The detector's test is the capsule's own enclosesVolume(sphere) with the radius grown by epsilon. */
  lemma CapsuleEnclosingSphereAgrees(k: CapsuleGeom, s: SphereGeom, sqrt: real -> real)
    ensures CapsuleEnclosingSphere(k, s, sqrt) ==
            Capsules.EnclosesSphere(k.actualStart, k.actualEnd, k.actualRadius + Epsilon, s.center, s.WorldRadius(), sqrt)
  {
  }

  /** When the test holds, every point of the ball is within rk + epsilon of the line. */
  lemma CapsuleEnclosingSphereHoldsBall(k: CapsuleGeom, s: SphereGeom, sqrt: real -> real, q: Vec3)
    requires IsSqrt(sqrt) && CapsuleEnclosingSphere(k, s, sqrt) && s.WorldRadius() >= 0.0
    requires DistSq(s.center, q) <= s.WorldRadius() * s.WorldRadius()
    ensures SqDistToSegment(q, k.actualStart, k.actualEnd) <= (k.actualRadius + Epsilon) * (k.actualRadius + Epsilon)
  {
    hide *;
    var rs, rk := s.WorldRadius(), k.actualRadius;
    CapsuleEnclosingSphereAgrees(k, s, sqrt);
    assert Capsules.EnclosesSphere(k.actualStart, k.actualEnd, rk + Epsilon, s.center, rs, sqrt);
    Capsules.EnclosesSphereHoldsBall(k.actualStart, k.actualEnd, rk + Epsilon, s.center, rs, sqrt, q);
  }

  /** isCapsuleEnclosingCapsule: both ends of the second line, each distance plus the second radius within the first, up to epsilon. */
  predicate CapsuleEnclosingCapsule(k1: CapsuleGeom, k2: CapsuleGeom, sqrt: real -> real) {
    var start, end := k1.actualStart, k1.actualEnd;
    var diff1 := Sub(ClosestPtPointSegment(k2.actualStart, start, end), k2.actualStart);
    var diff2 := Sub(ClosestPtPointSegment(k2.actualEnd, start, end), k2.actualEnd);
    sqrt(Dot(diff1, diff1)) + k2.actualRadius - k1.actualRadius <= Epsilon &&
    sqrt(Dot(diff2, diff2)) + k2.actualRadius - k1.actualRadius <= Epsilon
  }

  /** The detector's test is the capsule's own enclosesVolume(capsule) with the radius grown by epsilon. */
  lemma CapsuleEnclosingCapsuleAgrees(k1: CapsuleGeom, k2: CapsuleGeom, sqrt: real -> real)
    ensures CapsuleEnclosingCapsule(k1, k2, sqrt) ==
            Capsules.EnclosesCapsule(k1.actualStart, k1.actualEnd, k1.actualRadius + Epsilon,
                                     k2.actualStart, k2.actualEnd, k2.actualRadius, sqrt)
  {
  }

  /** When the test holds, every point of the second capsule is within r1 + epsilon of the first line. */
  lemma CapsuleEnclosingCapsuleHoldsCapsule(k1: CapsuleGeom, k2: CapsuleGeom, sqrt: real -> real, u: real, q: Vec3)
    requires IsSqrt(sqrt) && CapsuleEnclosingCapsule(k1, k2, sqrt) && k2.actualRadius >= 0.0 && 0.0 <= u <= 1.0
    requires DistSq(PointAt(k2.actualStart, k2.actualEnd, u), q) <= k2.actualRadius * k2.actualRadius
    ensures SqDistToSegment(q, k1.actualStart, k1.actualEnd) <= (k1.actualRadius + Epsilon) * (k1.actualRadius + Epsilon)
  {
    hide *;
    CapsuleEnclosingCapsuleAgrees(k1, k2, sqrt);
    Capsules.EnclosesCapsuleHoldsCapsule(k1.actualStart, k1.actualEnd, k1.actualRadius + Epsilon,
                                         k2.actualStart, k2.actualEnd, k2.actualRadius, sqrt, u, q);
  }

  /** isCapsuleEnclosingOBB: every corner's squared distance to the line within the squared radius, up to epsilon. */
  predicate CapsuleEnclosingObb(k: CapsuleGeom, o: ObbGeom) {
    var pts := o.Corners();
    forall j :: 0 <= j < 8 ==>
      SqDistToSegment(pts[j], k.actualStart, k.actualEnd) - k.actualRadius * k.actualRadius <= Epsilon
  }

  /** The loop over the corners, false at the first one too far from the line. */
  method CapsuleEnclosingObbSteps(k: CapsuleGeom, o: ObbGeom) returns (b: bool)
    ensures b == CapsuleEnclosingObb(k, o)
  {
    hide BoxCorners, ClosestPtPointSegment;
    var testPoints := o.Corners();
    var bRadius := k.actualRadius;
    var radius2 := bRadius * bRadius;
    for i := 0 to 8
      invariant forall j :: 0 <= j < i ==> SqDistToSegment(testPoints[j], k.actualStart, k.actualEnd) - radius2 <= Epsilon
    {
      var diff := Sub(ClosestPtPointSegment(testPoints[i], k.actualStart, k.actualEnd), testPoints[i]);
      if Dot(diff, diff) - radius2 > Epsilon {
        return false;
      }
    }
    return true;
  }

  /** A box the capsule encloses by the box's own isEnclosedByVolume passes the detector's test. */
  lemma CapsuleEnclosingObbFromBox(k: CapsuleGeom, o: ObbGeom)
    requires IsEnclosedByCapsule(o, k)
    ensures CapsuleEnclosingObb(k, o)
  {
    var pts := o.Corners();
    forall j | 0 <= j < 8
      ensures SqDistToSegment(pts[j], k.actualStart, k.actualEnd) - k.actualRadius * k.actualRadius <= Epsilon
    {
      assert SqDistToSegment(pts[j], k.actualStart, k.actualEnd) <= k.actualRadius * k.actualRadius;
    }
  }

  /** When the test holds, the box's center is within the squared radius plus epsilon of the line. */
  lemma CapsuleEnclosingObbHoldsCenter(k: CapsuleGeom, o: ObbGeom)
    requires CapsuleEnclosingObb(k, o)
    ensures SqDistToSegment(o.center, k.actualStart, k.actualEnd) <= k.actualRadius * k.actualRadius + Epsilon
  {
    var pts, r2 := o.Corners(), k.actualRadius * k.actualRadius + Epsilon;
    assert SqDistToSegment(pts[0], k.actualStart, k.actualEnd) <= r2;
    assert SqDistToSegment(pts[4], k.actualStart, k.actualEnd) <= r2;
    OppositeCorners(o.center, o.EdgeX(), o.EdgeY(), o.EdgeZ());
    Capsules.SegmentDistConvex(k.actualStart, k.actualEnd, pts[0], pts[4], 0.5, r2);
    assert PointAt(pts[0], pts[4], 0.5) == o.center;
  }
}
