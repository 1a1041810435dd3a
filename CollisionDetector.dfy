// CollisionDetector: the contact between two bounding volumes. The
// dispatcher tells the operands apart by their kind and hands each pair
// of sphere, capsule and oriented box to one routine; each routine
// yields a contact point, a contact normal, a penetration depth and a
// validity flag, all zero and invalid when the volumes are apart. The
// world geometry that the engine reads from the transforms (centers,
// unit axes, the capsule's actual line and radius, the sphere's actual
// radius) comes in through the volume records, and square roots through
// a function `sqrt` that the lemmas require to be one.
module Collisions {
  import opened Vectors
  import opened GeometryUtils
  import opened GeometryBox
  import opened GeometryTriangle
  import opened Volumes
  import opened Contacts
  import Capsules
  import Frames

  /** The contact every routine reports when the volumes are apart. */
  const NoContact: ContactInfo := ContactInfo(Zero, Zero, 0.0, Invalid)

  /**
   * `offset / dist`, the normal of a contact: the offset scaled down to
   * length one. A zero dist is a division by zero in the engine; the
   * model yields the zero vector for it.
   */
  function Direction(offset: Vec3, dist: real): Vec3 {
    if dist == 0.0 then Zero else Div(offset, dist)
  }

  /** The engine's `dist2 - radius * radius <= epsilon`: the volumes touch. */
  predicate Touching(dist2: real, radius: real) {
    dist2 - radius * radius <= Epsilon
  }

  /**
   * The shape every routine shares: when the squared distance dist2 is
   * within radius, a valid contact at point with normal and penetration
   * radius - sqrt(dist2); otherwise no contact.
   */
  function ContactAt(dist2: real, radius: real, point: Vec3, normal: Vec3, sqrt: real -> real): ContactInfo {
    if Touching(dist2, radius) then ContactInfo(point, normal, radius - sqrt(dist2), Valid) else NoContact
  }

  /** A contact is valid exactly when the distance is within the radius, up to epsilon; otherwise it is all zero. */
  lemma ContactAtValidIff(dist2: real, radius: real, point: Vec3, normal: Vec3, sqrt: real -> real)
    ensures var c := ContactAt(dist2, radius, point, normal, sqrt);
            (c.validity == Valid <==> dist2 <= radius * radius + Epsilon) &&
            (c.validity == Invalid ==> c == NoContact)
  {
  }

  /** dist2 <= radius^2 with radius >= 0: a valid contact whose penetration is not negative. */
  lemma ContactAtPenetration(dist2: real, radius: real, point: Vec3, normal: Vec3, sqrt: real -> real)
    requires IsSqrt(sqrt) && dist2 >= 0.0 && radius >= 0.0 && dist2 <= radius * radius
    ensures ContactAt(dist2, radius, point, normal, sqrt).validity == Valid
    ensures ContactAt(dist2, radius, point, normal, sqrt).penetration >= 0.0
  {
    Capsules.RootLeIffSquared(sqrt, dist2, 0.0, radius);
  }

  /** Two contacts with the same distance and radius and opposite normals. */
  lemma ContactAtTurned(dist2: real, radius: real, p1: Vec3, p2: Vec3, n: Vec3, sqrt: real -> real)
    ensures var c, d := ContactAt(dist2, radius, p1, n, sqrt), ContactAt(dist2, radius, p2, Neg(n), sqrt);
            c.validity == d.validity && c.penetration == d.penetration && d.normal == Neg(c.normal)
  {
  }

  /** A non-zero dist scales the normal back to the offset. */
  lemma DirectionScales(offset: Vec3, dist: real)
    requires dist != 0.0
    ensures Scale(dist, Direction(offset, dist)) == offset
  {
  }

  /** Negating the offset negates the normal. */
  lemma DirectionNeg(offset: Vec3, dist: real)
    ensures Direction(Neg(offset), dist) == Neg(Direction(offset, dist))
  {
  }

  /** The offset over its length has length one. */
  lemma DirectionIsUnit(offset: Vec3, sqrt: real -> real)
    requires IsSqrt(sqrt) && offset != Zero
    ensures LengthSq(Direction(offset, sqrt(Dot(offset, offset)))) == 1.0
  {
    var l := Dot(offset, offset);
    LengthSqPositive(offset);
    var d := sqrt(l);
    assert d * d == l;
    var n := Direction(offset, d);
    DirectionScales(offset, d);
    ScaledLengthSq(d, n);
    UnitFromScaled(l, d, LengthSq(n));
  }

  /** |k v|^2 = k^2 |v|^2. */
  lemma ScaledLengthSq(k: real, v: Vec3)
    ensures LengthSq(Scale(k, v)) == (k * k) * LengthSq(v)
  {
  }

  lemma EqualFactors(x: real, y: real, m: real)
    requires x == y
    ensures x * m == y * m
  {
  }

  /** l = d^2 m with l = d^2 > 0 leaves m = 1. */
  lemma UnitFromScaled(l: real, d: real, m: real)
    requires l > 0.0 && d * d == l && l == (d * d) * m
    ensures m == 1.0
  {
    EqualFactors(d * d, l, m);
    assert l * (m - 1.0) == 0.0;
  }

  lemma NegDot(v: Vec3)
    ensures Dot(Neg(v), Neg(v)) == Dot(v, v)
  {
  }

  // ---------------------------------------------------------------------
  // Sphere and sphere
  // ---------------------------------------------------------------------

  /**
   * The contact of two centers c1 and c2 whose radii sum to radiusSum:
   * offset c1 - c2, point c1 + offset / 2, normal offset / dist.
   */
  function CentersContact(c1: Vec3, c2: Vec3, radiusSum: real, sqrt: real -> real): ContactInfo {
    var offset := Sub(c1, c2);
    var dist2 := Dot(offset, offset);
    ContactAt(dist2, radiusSum, Add(c1, Scale(0.5, offset)), Direction(offset, sqrt(dist2)), sqrt)
  }

  /**
   * isSphereIntersectingSphere: the centers' offset against the sum of the
   * actual radii.
   */
  function SphereSphere(s1: SphereGeom, s2: SphereGeom, sqrt: real -> real): ContactInfo {
    CentersContact(s1.center, s2.center, s1.WorldRadius() + s2.WorldRadius(), sqrt)
  }

  /**
   * Swapping the centers keeps validity and penetration and turns the
   * normal around; the radius sums ra and rb are the same sum added up in
   * either order.
   */
  lemma CentersContactSwapped(c1: Vec3, c2: Vec3, ra: real, rb: real, sqrt: real -> real)
    requires ra == rb
    ensures var c, d := CentersContact(c1, c2, ra, sqrt), CentersContact(c2, c1, rb, sqrt);
            c.validity == d.validity && c.penetration == d.penetration && d.normal == Neg(c.normal)
  {
    var offset := Sub(c1, c2);
    assert Sub(c2, c1) == Neg(offset);
    NegDot(offset);
    DirectionNeg(offset, sqrt(Dot(offset, offset)));
    ContactAtTurned(Dot(offset, offset), ra, Add(c1, Scale(0.5, offset)), Add(c2, Scale(0.5, Neg(offset))),
                    Direction(offset, sqrt(Dot(offset, offset))), sqrt);
  }

  /** Swapping the two spheres keeps validity and penetration and turns the normal around. */
  lemma SphereSphereSwapped(s1: SphereGeom, s2: SphereGeom, sqrt: real -> real)
    ensures var c, d := SphereSphere(s1, s2, sqrt), SphereSphere(s2, s1, sqrt);
            c.validity == d.validity && c.penetration == d.penetration && d.normal == Neg(c.normal)
  {
    var ra, rb := s1.WorldRadius() + s2.WorldRadius(), s2.WorldRadius() + s1.WorldRadius();
    assert SphereSphere(s1, s2, sqrt) == CentersContact(s1.center, s2.center, ra, sqrt);
    assert SphereSphere(s2, s1, sqrt) == CentersContact(s2.center, s1.center, rb, sqrt);
    CentersContactSwapped(s1.center, s2.center, ra, rb, sqrt);
  }

  /**
   * The contact is valid exactly when the centers are within the sum of
   * the actual radii, up to epsilon; two spheres that truly overlap
   * (radius sum not negative) give a non-negative penetration.
   */
  lemma SphereSphereValid(s1: SphereGeom, s2: SphereGeom, r: real, sqrt: real -> real)
    requires IsSqrt(sqrt) && r == s1.WorldRadius() + s2.WorldRadius()
    ensures var c := SphereSphere(s1, s2, sqrt);
            (c.validity == Valid <==> DistSq(s2.center, s1.center) <= r * r + Epsilon) &&
            (c.validity == Invalid ==> c == NoContact) &&
            (r >= 0.0 && DistSq(s2.center, s1.center) <= r * r ==> c.validity == Valid && c.penetration >= 0.0)
  {
    assert SphereSphere(s1, s2, sqrt) == CentersContact(s1.center, s2.center, r, sqrt);
    CentersContactValid(s1.center, s2.center, r, sqrt);
  }

  lemma CentersContactValid(c1: Vec3, c2: Vec3, r: real, sqrt: real -> real)
    requires IsSqrt(sqrt)
    ensures var c := CentersContact(c1, c2, r, sqrt);
            (c.validity == Valid <==> DistSq(c2, c1) <= r * r + Epsilon) &&
            (c.validity == Invalid ==> c == NoContact) &&
            (r >= 0.0 && DistSq(c2, c1) <= r * r ==> c.validity == Valid && c.penetration >= 0.0)
  {
    var offset := Sub(c1, c2);
    var d2 := Dot(offset, offset);
    var p, n := Add(c1, Scale(0.5, offset)), Direction(offset, sqrt(d2));
    assert CentersContact(c1, c2, r, sqrt) == ContactAt(d2, r, p, n, sqrt);
    assert DistSq(c2, c1) == d2;
    ContactAtValidIff(d2, r, p, n, sqrt);
    LengthSqNonNegative(offset);
    if r >= 0.0 && d2 <= r * r {
      ContactAtPenetration(d2, r, p, n, sqrt);
    }
  }

  /**
   * The normal of a valid contact of two spheres with distinct centers has
   * length one and points from the second center to the first.
   */
  lemma SphereSphereNormal(s1: SphereGeom, s2: SphereGeom, sqrt: real -> real)
    requires IsSqrt(sqrt) && s1.center != s2.center
    requires SphereSphere(s1, s2, sqrt).validity == Valid
    ensures var c := SphereSphere(s1, s2, sqrt);
            LengthSq(c.normal) == 1.0 && Scale(sqrt(DistSq(s2.center, s1.center)), c.normal) == Sub(s1.center, s2.center)
  {
    var r := s1.WorldRadius() + s2.WorldRadius();
    assert SphereSphere(s1, s2, sqrt) == CentersContact(s1.center, s2.center, r, sqrt);
    CentersContactNormal(s1.center, s2.center, r, sqrt);
  }

  lemma CentersContactNormal(c1: Vec3, c2: Vec3, r: real, sqrt: real -> real)
    requires IsSqrt(sqrt) && c1 != c2
    requires CentersContact(c1, c2, r, sqrt).validity == Valid
    ensures var c := CentersContact(c1, c2, r, sqrt);
            LengthSq(c.normal) == 1.0 && Scale(sqrt(DistSq(c2, c1)), c.normal) == Sub(c1, c2)
  {
    var offset := Sub(c1, c2);
    var d2 := Dot(offset, offset);
    assert DistSq(c2, c1) == d2;
    assert CentersContact(c1, c2, r, sqrt).normal == Direction(offset, sqrt(d2));
    OffsetZeroIff(c1, c2);
    DirectionIsUnit(offset, sqrt);
    SqrtOfPositive(sqrt, offset);
    DirectionScales(offset, sqrt(d2));
  }

  /** The offset of two points is zero exactly when they coincide. */
  lemma OffsetZeroIff(a: Vec3, b: Vec3)
    ensures Sub(a, b) == Zero <==> a == b
  {
    if Sub(a, b) == Zero {
      assert a.x == b.x && a.y == b.y && a.z == b.z;
    }
  }

  /** The length of a non-zero vector is not zero. */
  lemma SqrtOfPositive(sqrt: real -> real, v: Vec3)
    requires IsSqrt(sqrt) && v != Zero
    ensures sqrt(Dot(v, v)) != 0.0
  {
    LengthSqPositive(v);
    LengthLeIffSquared(sqrt(Dot(v, v)), Dot(v, v), 0.0, 0.0);
  }

  /**
   * The contact point is c1 + (c1 - c2) / 2: half a center distance beyond
   * c1, away from c2, so 1.5 center distances from c2. It is the midpoint
   * of the centers only when they coincide.
   */
  lemma SphereSphereContactPoint(s1: SphereGeom, s2: SphereGeom, sqrt: real -> real)
    requires SphereSphere(s1, s2, sqrt).validity == Valid
    ensures var p := SphereSphere(s1, s2, sqrt).point;
            DistSq(s2.center, p) == 2.25 * DistSq(s2.center, s1.center) &&
            (p == Scale(0.5, Add(s1.center, s2.center)) <==> s1.center == s2.center)
  {
    BeyondFirst(s1.center, s2.center);
  }

  /** c1 + (c1 - c2) / 2 is 1.5 times as far from c2 as c1, and the midpoint only when c1 = c2. */
  lemma BeyondFirst(c1: Vec3, c2: Vec3)
    ensures var p := Add(c1, Scale(0.5, Sub(c1, c2)));
            DistSq(c2, p) == 2.25 * DistSq(c2, c1) &&
            (p == Scale(0.5, Add(c1, c2)) <==> c1 == c2)
  {
    var p := Add(c1, Scale(0.5, Sub(c1, c2)));
    assert Sub(p, c2) == Scale(1.5, Sub(c1, c2));
    ScaledLengthSq(1.5, Sub(c1, c2));
    assert Sub(c1, c2) == Neg(Sub(c2, c1));
    NegDot(Sub(c2, c1));
    if p == Scale(0.5, Add(c1, c2)) {
      assert c1.x == c2.x && c1.y == c2.y && c1.z == c2.z;
    }
  }

  // ---------------------------------------------------------------------
  // Capsule and sphere
  // ---------------------------------------------------------------------

  /**
   * isCapsuleIntersectingSphere: the closest point of the actual line to
   * the sphere's center, offset from the center, radius sum of both
   * actual radii. With reverse (the sphere was the first operand) the
   * point is linePoint + offset / 2 and the normal offset / dist; without
   * it the point is center - offset / 2 and the normal -offset / dist.
   */
  function CapsuleSphere(c: CapsuleGeom, s: SphereGeom, reverse: bool, sqrt: real -> real): ContactInfo {
    LineSphere(ClosestPtPointSegment(s.center, c.actualStart, c.actualEnd), s.center,
               c.actualRadius + s.WorldRadius(), reverse, sqrt)
  }

  /** The capsule-sphere contact given the closest line point. */
  function LineSphere(linePoint: Vec3, center: Vec3, radiusSum: real, reverse: bool, sqrt: real -> real): ContactInfo {
    var offset := Sub(linePoint, center);
    var dist2 := Dot(offset, offset);
    if reverse then ContactAt(dist2, radiusSum, Add(linePoint, Scale(0.5, offset)), Direction(offset, sqrt(dist2)), sqrt)
    else ContactAt(dist2, radiusSum, Sub(center, Scale(0.5, offset)), Direction(Neg(offset), sqrt(dist2)), sqrt)
  }

  /** The reverse flag keeps validity and penetration and turns the normal around. */
  lemma CapsuleSphereReverse(c: CapsuleGeom, s: SphereGeom, sqrt: real -> real)
    ensures var r, f := CapsuleSphere(c, s, true, sqrt), CapsuleSphere(c, s, false, sqrt);
            r.validity == f.validity && r.penetration == f.penetration && r.normal == Neg(f.normal)
  {
    var q, r := ClosestPtPointSegment(s.center, c.actualStart, c.actualEnd), c.actualRadius + s.WorldRadius();
    assert CapsuleSphere(c, s, true, sqrt) == LineSphere(q, s.center, r, true, sqrt);
    assert CapsuleSphere(c, s, false, sqrt) == LineSphere(q, s.center, r, false, sqrt);
    LineSphereReverse(q, s.center, r, sqrt);
  }

  lemma LineSphereReverse(linePoint: Vec3, center: Vec3, radiusSum: real, sqrt: real -> real)
    ensures var r, f := LineSphere(linePoint, center, radiusSum, true, sqrt), LineSphere(linePoint, center, radiusSum, false, sqrt);
            r.validity == f.validity && r.penetration == f.penetration && r.normal == Neg(f.normal)
  {
    var offset := Sub(linePoint, center);
    var d := sqrt(Dot(offset, offset));
    DirectionNeg(offset, d);
    ContactAtTurned(Dot(offset, offset), radiusSum, Sub(center, Scale(0.5, offset)), Add(linePoint, Scale(0.5, offset)),
                    Direction(Neg(offset), d), sqrt);
  }

  /**
   * The contact is valid exactly when the sphere's center is within the
   * radius sum of the line, up to epsilon; a center within the radius sum
   * of some point of the line gives a non-negative penetration.
   */
  lemma CapsuleSphereValid(c: CapsuleGeom, s: SphereGeom, r: real, reverse: bool, sqrt: real -> real, u: real)
    requires IsSqrt(sqrt) && 0.0 <= u <= 1.0 && r == c.actualRadius + s.WorldRadius()
    ensures var k := CapsuleSphere(c, s, reverse, sqrt);
            (k.validity == Valid <==> SqDistToSegment(s.center, c.actualStart, c.actualEnd) <= r * r + Epsilon) &&
            (k.validity == Invalid ==> k == NoContact) &&
            (r >= 0.0 && DistSq(s.center, PointAt(c.actualStart, c.actualEnd, u)) <= r * r ==>
               k.validity == Valid && k.penetration >= 0.0)
  {
    var q := ClosestPtPointSegment(s.center, c.actualStart, c.actualEnd);
    assert CapsuleSphere(c, s, reverse, sqrt) == LineSphere(q, s.center, r, reverse, sqrt);
    Capsules.SqDistToSegmentNonNegative(s.center, c.actualStart, c.actualEnd);
    LineSphereValid(q, s.center, r, reverse, sqrt);
    if r >= 0.0 && DistSq(s.center, PointAt(c.actualStart, c.actualEnd, u)) <= r * r {
      Capsules.NearPointOfSegment(s.center, c.actualStart, c.actualEnd, u, r * r);
    }
  }

  lemma LineSphereValid(linePoint: Vec3, center: Vec3, radiusSum: real, reverse: bool, sqrt: real -> real)
    requires IsSqrt(sqrt)
    ensures var k, d2 := LineSphere(linePoint, center, radiusSum, reverse, sqrt), Dot(Sub(linePoint, center), Sub(linePoint, center));
            (k.validity == Valid <==> d2 <= radiusSum * radiusSum + Epsilon) &&
            (k.validity == Invalid ==> k == NoContact) &&
            (radiusSum >= 0.0 && d2 <= radiusSum * radiusSum ==> k.validity == Valid && k.penetration >= 0.0)
  {
    var offset := Sub(linePoint, center);
    var d2 := Dot(offset, offset);
    var p := if reverse then Add(linePoint, Scale(0.5, offset)) else Sub(center, Scale(0.5, offset));
    var n := if reverse then Direction(offset, sqrt(d2)) else Direction(Neg(offset), sqrt(d2));
    assert LineSphere(linePoint, center, radiusSum, reverse, sqrt) == ContactAt(d2, radiusSum, p, n, sqrt);
    ContactAtValidIff(d2, radiusSum, p, n, sqrt);
    LengthSqNonNegative(offset);
    if radiusSum >= 0.0 && d2 <= radiusSum * radiusSum {
      ContactAtPenetration(d2, radiusSum, p, n, sqrt);
    }
  }

  // ---------------------------------------------------------------------
  // Capsule and capsule
  // ---------------------------------------------------------------------

  /**
   * isCapsuleIntersectingCapsule: the closest points c1 (first line) and
   * c2 (second line) and their squared distance; the point is
   * c1 + (c1 - c2) / 2, the normal (c1 - c2) / dist.
   */
  function CapsuleCapsule(c1: CapsuleGeom, c2: CapsuleGeom, sqrt: real -> real): ContactInfo {
    PairContact(SegmentsClosest(c1.actualStart, c1.actualEnd, c2.actualStart, c2.actualEnd),
                c1.actualRadius + c2.actualRadius, sqrt)
  }

  /** The capsule-capsule contact given the closest pair. */
  function PairContact(p: ClosestPair, radiusSum: real, sqrt: real -> real): ContactInfo {
    var offset := Sub(p.c1, p.c2);
    ContactAt(p.dist2, radiusSum, Add(p.c1, Scale(0.5, offset)), Direction(offset, sqrt(p.dist2)), sqrt)
  }

  /**
   * The contact is valid exactly when the lines' closest points are within
   * the radius sum, up to epsilon; capsules that the capsule's own test
   * finds intersecting give a non-negative penetration.
   */
  lemma CapsuleCapsuleValid(c1: CapsuleGeom, c2: CapsuleGeom, sqrt: real -> real)
    requires IsSqrt(sqrt)
    ensures var k, r := CapsuleCapsule(c1, c2, sqrt), c1.actualRadius + c2.actualRadius;
            var p := SegmentsClosest(c1.actualStart, c1.actualEnd, c2.actualStart, c2.actualEnd);
            (k.validity == Valid <==> p.dist2 <= r * r + Epsilon) &&
            (k.validity == Invalid ==> k == NoContact) &&
            (r >= 0.0 && Capsules.IntersectsCapsule(c1.actualStart, c1.actualEnd, c1.actualRadius, c2.actualStart, c2.actualEnd, c2.actualRadius) ==>
               k.validity == Valid && k.penetration >= 0.0)
  {
    var p := SegmentsClosest(c1.actualStart, c1.actualEnd, c2.actualStart, c2.actualEnd);
    assert CapsuleCapsule(c1, c2, sqrt) == PairContact(p, c1.actualRadius + c2.actualRadius, sqrt);
    PairContactValid(p, c1.actualRadius + c2.actualRadius, sqrt);
  }

  lemma PairContactValid(p: ClosestPair, radiusSum: real, sqrt: real -> real)
    requires IsSqrt(sqrt) && p.dist2 >= 0.0
    ensures var k := PairContact(p, radiusSum, sqrt);
            (k.validity == Valid <==> p.dist2 <= radiusSum * radiusSum + Epsilon) &&
            (k.validity == Invalid ==> k == NoContact) &&
            (radiusSum >= 0.0 && p.dist2 <= radiusSum * radiusSum ==> k.validity == Valid && k.penetration >= 0.0)
  {
    var offset := Sub(p.c1, p.c2);
    var pt, n := Add(p.c1, Scale(0.5, offset)), Direction(offset, sqrt(p.dist2));
    ContactAtValidIff(p.dist2, radiusSum, pt, n, sqrt);
    if radiusSum >= 0.0 && p.dist2 <= radiusSum * radiusSum {
      ContactAtPenetration(p.dist2, radiusSum, pt, n, sqrt);
    }
  }

  /**
   * The contact point lies beyond the first line's closest point, 1.5
   * times the closest distance from the second line's.
   */
  lemma CapsuleCapsuleContactPoint(c1: CapsuleGeom, c2: CapsuleGeom, sqrt: real -> real)
    requires CapsuleCapsule(c1, c2, sqrt).validity == Valid
    ensures var p := SegmentsClosest(c1.actualStart, c1.actualEnd, c2.actualStart, c2.actualEnd);
            DistSq(p.c2, CapsuleCapsule(c1, c2, sqrt).point) == 2.25 * p.dist2
  {
    var p := SegmentsClosest(c1.actualStart, c1.actualEnd, c2.actualStart, c2.actualEnd);
    assert CapsuleCapsule(c1, c2, sqrt) == PairContact(p, c1.actualRadius + c2.actualRadius, sqrt);
    PairContactPoint(p, c1.actualRadius + c2.actualRadius, sqrt);
    DistSqSymmetric(p.c1, p.c2);
  }

  lemma PairContactPoint(p: ClosestPair, radiusSum: real, sqrt: real -> real)
    requires PairContact(p, radiusSum, sqrt).validity == Valid
    ensures DistSq(p.c2, PairContact(p, radiusSum, sqrt).point) == 2.25 * DistSq(p.c2, p.c1)
  {
    BeyondFirst(p.c1, p.c2);
  }

  // ---------------------------------------------------------------------
  // Oriented box and sphere
  // ---------------------------------------------------------------------

  /**
   * isOBBIntersectingSphere: the closest point of the box to the sphere's
   * center and the box's face normal there, against the sphere's actual
   * radius. With reverse the point is closest + (closest - center) / 2
   * and the normal the face normal; without it the point is
   * center + (center - closest) / 2 and the normal turned around. The
   * penetration is the radius less the distance.
   */
  function ObbSphere(o: ObbGeom, s: SphereGeom, reverse: bool, sqrt: real -> real): ContactInfo {
    BoxPointSphere(ClosestPtPointOBB(s.center, o.center, o.xAxis, o.yAxis, o.zAxis, o.extents),
                   s.center, s.WorldRadius(), reverse, sqrt)
  }

  /** The box-sphere contact given the closest point and normal. */
  function BoxPointSphere(pn: PointAndNormal, center: Vec3, bRadius: real, reverse: bool, sqrt: real -> real): ContactInfo {
    var diff := Sub(pn.point, center);
    var dist2 := Dot(diff, diff);
    if reverse then ContactAt(dist2, bRadius, Add(pn.point, Scale(0.5, Sub(pn.point, center))), pn.normal, sqrt)
    else ContactAt(dist2, bRadius, Add(center, Scale(0.5, Sub(center, pn.point))), Neg(pn.normal), sqrt)
  }

  /** The reverse flag keeps validity and penetration and turns the normal around. */
  lemma ObbSphereReverse(o: ObbGeom, s: SphereGeom, sqrt: real -> real)
    ensures var r, f := ObbSphere(o, s, true, sqrt), ObbSphere(o, s, false, sqrt);
            r.validity == f.validity && r.penetration == f.penetration && r.normal == Neg(f.normal)
  {
    var pn := ClosestPtPointOBB(s.center, o.center, o.xAxis, o.yAxis, o.zAxis, o.extents);
    assert ObbSphere(o, s, true, sqrt) == BoxPointSphere(pn, s.center, s.WorldRadius(), true, sqrt);
    assert ObbSphere(o, s, false, sqrt) == BoxPointSphere(pn, s.center, s.WorldRadius(), false, sqrt);
    BoxPointSphereReverse(pn, s.center, s.WorldRadius(), sqrt);
  }

  lemma BoxPointSphereReverse(pn: PointAndNormal, center: Vec3, bRadius: real, sqrt: real -> real)
    ensures var r, f := BoxPointSphere(pn, center, bRadius, true, sqrt), BoxPointSphere(pn, center, bRadius, false, sqrt);
            r.validity == f.validity && r.penetration == f.penetration && r.normal == Neg(f.normal)
  {
    var diff := Sub(pn.point, center);
    ContactAtTurned(Dot(diff, diff), bRadius, Add(center, Scale(0.5, Sub(center, pn.point))),
                    Add(pn.point, Scale(0.5, Sub(pn.point, center))), Neg(pn.normal), sqrt);
    assert Neg(Neg(pn.normal)) == pn.normal;
  }

  /**
   * The contact is valid exactly when the sphere's center is within its
   * radius of the box's closest point, up to epsilon; the normal of a
   * valid reversed contact is a unit axis of the box turned toward the
   * sphere's center.
   */
  lemma ObbSphereValid(o: ObbGeom, s: SphereGeom, r: real, sqrt: real -> real)
    requires Orthonormal(o.xAxis, o.yAxis, o.zAxis) && r == s.WorldRadius()
    ensures var k := ObbSphere(o, s, true, sqrt);
            var pn := ClosestPtPointOBB(s.center, o.center, o.xAxis, o.yAxis, o.zAxis, o.extents);
            (k.validity == Valid <==> DistSq(s.center, pn.point) <= r * r + Epsilon) &&
            (k.validity == Invalid ==> k == NoContact) &&
            (k.validity == Valid ==> LengthSq(k.normal) == 1.0 && Dot(Sub(s.center, o.center), k.normal) >= 0.0)
  {
    var pn := ClosestPtPointOBB(s.center, o.center, o.xAxis, o.yAxis, o.zAxis, o.extents);
    var diff := Sub(pn.point, s.center);
    assert ObbSphere(o, s, true, sqrt) == BoxPointSphere(pn, s.center, r, true, sqrt);
    ContactAtValidIff(Dot(diff, diff), r, Add(pn.point, Scale(0.5, Sub(pn.point, s.center))), pn.normal, sqrt);
    assert DistSq(s.center, pn.point) == Dot(diff, diff);
    FaceNormalFacesPoint(s.center, o.center, o.xAxis, o.yAxis, o.zAxis, o.extents);
    var dist := Projections(s.center, o.center, o.xAxis, o.yAxis, o.zAxis);
    var depth := Vec3(o.extents.x - Abs(dist.x), o.extents.y - Abs(dist.y), o.extents.z - Abs(dist.z));
    UnitAxisTurned(o.xAxis, o.yAxis, o.zAxis, FaceAxis(depth), pn.normal);
  }

  /** An axis of an orthonormal frame, or its negation, has length one. */
  lemma UnitAxisTurned(x: Vec3, y: Vec3, z: Vec3, k: nat, n: Vec3)
    requires Orthonormal(x, y, z) && k < 3
    requires n == AxisAt(x, y, z, k) || n == Neg(AxisAt(x, y, z, k))
    ensures LengthSq(n) == 1.0
  {
    NegDot(AxisAt(x, y, z, k));
  }

  /**
   * A sphere whose center lies in the box touches it: the closest point is
   * the center itself, and the penetration is the full actual radius.
   */
  lemma ObbSphereCenterInside(o: ObbGeom, s: SphereGeom, reverse: bool, sqrt: real -> real)
    requires IsSqrt(sqrt) && Orthonormal(o.xAxis, o.yAxis, o.zAxis)
    requires WithinExtents(Projections(s.center, o.center, o.xAxis, o.yAxis, o.zAxis), o.extents)
    ensures ObbSphere(o, s, reverse, sqrt).validity == Valid
    ensures ObbSphere(o, s, reverse, sqrt).penetration == s.WorldRadius()
  {
    var pn := ClosestPtPointOBB(s.center, o.center, o.xAxis, o.yAxis, o.zAxis, o.extents);
    assert ObbSphere(o, s, reverse, sqrt) == BoxPointSphere(pn, s.center, s.WorldRadius(), reverse, sqrt);
    InsidePointIsClosest(s.center, o.center, o.xAxis, o.yAxis, o.zAxis, o.extents);
    BoxPointSphereAtCenter(pn, s.center, s.WorldRadius(), reverse, sqrt);
  }

  /** A closest point that is the center itself: valid, at the full radius. */
  lemma BoxPointSphereAtCenter(pn: PointAndNormal, center: Vec3, bRadius: real, reverse: bool, sqrt: real -> real)
    requires IsSqrt(sqrt) && pn.point == center
    ensures BoxPointSphere(pn, center, bRadius, reverse, sqrt).validity == Valid
    ensures BoxPointSphere(pn, center, bRadius, reverse, sqrt).penetration == bRadius
  {
    SelfOffsetZero(pn.point, center);
    if reverse {
      var p := Add(pn.point, Scale(0.5, Sub(pn.point, center)));
      assert BoxPointSphere(pn, center, bRadius, reverse, sqrt) == ContactAt(0.0, bRadius, p, pn.normal, sqrt);
      ContactAtZero(bRadius, p, pn.normal, sqrt);
    } else {
      var p := Add(center, Scale(0.5, Sub(center, pn.point)));
      assert BoxPointSphere(pn, center, bRadius, reverse, sqrt) == ContactAt(0.0, bRadius, p, Neg(pn.normal), sqrt);
      ContactAtZero(bRadius, p, Neg(pn.normal), sqrt);
    }
  }

  /** A point's offset from itself has squared length zero. */
  lemma SelfOffsetZero(a: Vec3, b: Vec3)
    requires a == b
    ensures Dot(Sub(a, b), Sub(a, b)) == 0.0
  {
  }

  /** At distance zero a contact is valid with the full radius as penetration. */
  lemma ContactAtZero(radius: real, point: Vec3, normal: Vec3, sqrt: real -> real)
    requires IsSqrt(sqrt)
    ensures ContactAt(0.0, radius, point, normal, sqrt) == ContactInfo(point, normal, radius, Valid)
  {
    TouchingAtZero(radius);
    SqrtOfZero(sqrt);
  }

  /** A zero distance is within every radius. */
  lemma TouchingAtZero(r: real)
    ensures Touching(0.0, r)
  {
    SquareNonNegative(r);
  }

  lemma SquareNonNegative(r: real)
    ensures r * r >= 0.0
  {
    if r < 0.0 {
      assert r * r == (-r) * (-r);
    }
  }

  lemma SqrtOfZero(sqrt: real -> real)
    requires IsSqrt(sqrt)
    ensures sqrt(0.0) == 0.0
  {
    LengthLeIffSquared(sqrt(0.0), 0.0, 0.0, 0.0);
  }

  /** A point whose box coordinates are within the half extents is its own closest point of the box. */
  lemma InsidePointIsClosest(p: Vec3, center: Vec3, xAxis: Vec3, yAxis: Vec3, zAxis: Vec3, h: Vec3)
    requires Orthonormal(xAxis, yAxis, zAxis)
    requires WithinExtents(Projections(p, center, xAxis, yAxis, zAxis), h)
    ensures ClosestPtPointOBB(p, center, xAxis, yAxis, zAxis, h).point == p
  {
    var dist := Projections(p, center, xAxis, yAxis, zAxis);
    assert ClampToExtent(dist.x, h.x) == dist.x;
    assert ClampToExtent(dist.y, h.y) == dist.y;
    assert ClampToExtent(dist.z, h.z) == dist.z;
    ProjectionsRebuild(p, center, xAxis, yAxis, zAxis);
  }

  /** With an orthonormal frame a point is the center stepped by its projections along the axes. */
  lemma ProjectionsRebuild(p: Vec3, center: Vec3, xAxis: Vec3, yAxis: Vec3, zAxis: Vec3)
    requires Orthonormal(xAxis, yAxis, zAxis)
    ensures var d := Projections(p, center, xAxis, yAxis, zAxis);
            BoxPoint(center, xAxis, yAxis, zAxis, d.x, d.y, d.z) == p
  {
    var w := Sub(p, center);
    Frames.Completeness(xAxis, yAxis, zAxis, w);
  }

  // ---------------------------------------------------------------------
  // Oriented box and capsule
  // ---------------------------------------------------------------------

  /**
   * The index the engine's scan settles on: it starts at 0 and moves only
   * to a strictly smaller value, so it is the first index of least value.
   */
  function FirstMinIndex(ds: seq<real>): (k: nat)
    requires |ds| > 0
    ensures k < |ds|
    ensures forall j :: 0 <= j < |ds| ==> ds[k] <= ds[j]
    ensures forall j :: 0 <= j < k ==> ds[j] > ds[k]
  {
    if |ds| == 1 then 0
    else
      var k := FirstMinIndex(ds[..|ds| - 1]);
      if ds[|ds| - 1] < ds[k] then |ds| - 1 else k
  }

  /** One more element: the scan moves to it only when it is strictly smaller. */
  lemma FirstMinIndexStep(ds: seq<real>, i: nat)
    requires 0 < i < |ds|
    ensures var k := FirstMinIndex(ds[..i]);
            FirstMinIndex(ds[..i + 1]) == if ds[i] < ds[k] then i else k
  {
    assert ds[..i + 1][..i] == ds[..i];
  }

  /**
   * isOBBIntersectingCapsule: the box's triangles against the capsule's
   * actual line.
   */
  function ObbCapsule(o: ObbGeom, c: CapsuleGeom, reverse: bool, sqrt: real -> real): ContactInfo {
    TrianglesContact(c.actualStart, c.actualEnd, c.actualRadius, o.Triangles(), reverse, sqrt)
  }

  /** The normal the engine computes for a triangle, cross(b - a, c - b). */
  function TriNormal(t: Tri): Vec3 {
    Normal(t.v1, t.v2, t.v3)
  }

  /** The closest points of the line and the last triangle of ts. */
  function LastClosest(start: Vec3, end: Vec3, ts: seq<Tri>): ClosestPair
    requires |ts| > 0
  {
    var last := ts[|ts| - 1];
    SegmentTriangleClosest(start, end, last.v1, last.v2, last.v3)
  }

  /**
   * The least segment-triangle distance over ts and the first triangle
   * that attains it. The closest points c1 and c2 are overwritten by
   * every call, so they are those of the last triangle.
   */
  function TrianglesContact(start: Vec3, end: Vec3, radius: real, ts: seq<Tri>, reverse: bool, sqrt: real -> real): ContactInfo
    requires |ts| > 0
  {
    var ds := SegmentTriangleDists(start, end, ts);
    var k := FirstMinIndex(ds);
    NearestContact(ds[k], LastClosest(start, end, ts), TriNormal(ts[k]), radius, reverse, sqrt)
  }

  /**
   * The contact from the least distance dist2, the closest pair p and the
   * triangle normal n: with reverse the point is c1 + (c1 - c2) / 2 and
   * the normal n; without it c2 + (c2 - c1) / 2 and the normal turned
   * around. The penetration is the radius less the distance.
   */
  function NearestContact(dist2: real, p: ClosestPair, n: Vec3, radius: real, reverse: bool, sqrt: real -> real): ContactInfo {
    if reverse then ContactAt(dist2, radius, Add(p.c1, Scale(0.5, Sub(p.c1, p.c2))), n, sqrt)
    else ContactAt(dist2, radius, Add(p.c2, Scale(0.5, Sub(p.c2, p.c1))), Neg(n), sqrt)
  }

  /** The loop of isOBBIntersectingCapsule over the box's triangles, then the contact. */
  method ObbCapsuleSteps(o: ObbGeom, c: CapsuleGeom, reverse: bool, sqrt: real -> real) returns (contact: ContactInfo)
    ensures contact == ObbCapsule(o, c, reverse, sqrt)
  {
    var triangles := o.Triangles();
    var dist2, closestTriangleIndex, c1, c2 := NearestTriangle(c.actualStart, c.actualEnd, triangles);
    contact := ContactSteps(dist2, c1, c2, TriNormal(triangles[closestTriangleIndex]), c.actualRadius, reverse, sqrt);
    assert contact == TrianglesContact(c.actualStart, c.actualEnd, c.actualRadius, triangles, reverse, sqrt);
  }

  /** The tail of isOBBIntersectingCapsule: the contact from the scan's results. */
  method ContactSteps(dist2: real, c1: Vec3, c2: Vec3, n: Vec3, bRadius: real, reverse: bool, sqrt: real -> real)
    returns (contact: ContactInfo)
    ensures contact == NearestContact(dist2, ClosestPair(c1, c2, dist2), n, bRadius, reverse, sqrt)
  {
    if dist2 - bRadius * bRadius <= Epsilon {
      var dist := sqrt(dist2);
      if reverse {
        contact := ContactInfo(Add(c1, Scale(0.5, Sub(c1, c2))), n, bRadius - dist, Valid);
      } else {
        contact := ContactInfo(Add(c2, Scale(0.5, Sub(c2, c1))), Neg(n), bRadius - dist, Valid);
      }
    } else {
      contact := NoContact;
    }
  }

  /**
   * The scan: getClosestPtSegmentTriangle on every triangle in turn, the
   * index moving only to a strictly smaller distance, c1 and c2 left from
   * the last call.
   */
  method NearestTriangle(start: Vec3, end: Vec3, ts: seq<Tri>) returns (dist2: real, closest: nat, c1: Vec3, c2: Vec3)
    requires |ts| > 0
    ensures var ds := SegmentTriangleDists(start, end, ts);
            closest == FirstMinIndex(ds) && dist2 == ds[closest]
    ensures c1 == LastClosest(start, end, ts).c1 && c2 == LastClosest(start, end, ts).c2
  {
    hide SegmentTriangleClosest;
    ghost var ds := SegmentTriangleDists(start, end, ts);
    c1, c2, dist2 := ClosestPtSegmentTriangle(start, end, ts[0].v1, ts[0].v2, ts[0].v3);
    closest := 0;
    assert ds[0] == TriDist2(start, end, ts[0]);
    assert ds[..1] == [ds[0]];
    for i := 1 to |ts|
      invariant closest == FirstMinIndex(ds[..i]) && dist2 == ds[closest]
      invariant c1 == LastClosest(start, end, ts[..i]).c1 && c2 == LastClosest(start, end, ts[..i]).c2
    {
      var currDist2;
      c1, c2, currDist2 := ScanStep(start, end, ts, i);
      FirstMinIndexStep(ds, i);
      if currDist2 < dist2 {
        dist2 := currDist2;
        closest := i;
      }
    }
    assert ds[..|ts|] == ds;
    assert ts[..|ts|] == ts;
  }

  /** One call of getClosestPtSegmentTriangle in the scan, on triangle i. */
  method ScanStep(start: Vec3, end: Vec3, ts: seq<Tri>, i: nat) returns (c1: Vec3, c2: Vec3, dist2: real)
    requires i < |ts|
    ensures dist2 == SegmentTriangleDists(start, end, ts)[i]
    ensures c1 == LastClosest(start, end, ts[..i + 1]).c1 && c2 == LastClosest(start, end, ts[..i + 1]).c2
  {
    c1, c2, dist2 := ClosestPtSegmentTriangle(start, end, ts[i].v1, ts[i].v2, ts[i].v3);
    assert ts[..i + 1][i] == ts[i];
    assert SegmentTriangleDists(start, end, ts)[i] == TriDist2(start, end, ts[i]);
  }

  /**
   * The box's triangles are built as (a, b, b), so the closest triangle's
   * normal cross(b - a, b - b) is always the zero vector.
   */
  lemma ObbCapsuleNormalIsZero(o: ObbGeom, c: CapsuleGeom, reverse: bool, sqrt: real -> real)
    ensures ObbCapsule(o, c, reverse, sqrt).normal == Zero
  {
    var ts := o.Triangles();
    forall k | 0 <= k < |ts|
      ensures ts[k].v3 == ts[k].v2
    {
      BoxTrianglesOnFaces(o.center, o.EdgeX(), o.EdgeY(), o.EdgeZ(), k);
    }
    DegenerateNormalIsZero(c.actualStart, c.actualEnd, c.actualRadius, ts, reverse, sqrt);
  }

  /** Over triangles that are all (a, b, b) the contact's normal is zero. */
  lemma DegenerateNormalIsZero(start: Vec3, end: Vec3, radius: real, ts: seq<Tri>, reverse: bool, sqrt: real -> real)
    requires |ts| > 0
    requires forall k :: 0 <= k < |ts| ==> ts[k].v3 == ts[k].v2
    ensures TrianglesContact(start, end, radius, ts, reverse, sqrt).normal == Zero
  {
    var ds := SegmentTriangleDists(start, end, ts);
    var k := FirstMinIndex(ds);
    assert TrianglesContact(start, end, radius, ts, reverse, sqrt)
        == NearestContact(ds[k], LastClosest(start, end, ts), TriNormal(ts[k]), radius, reverse, sqrt);
    var t := ts[k];
    assert t.v3 == t.v2;
    TriNormalDegenerate(t);
    NearestContactZeroNormal(ds[k], LastClosest(start, end, ts), TriNormal(ts[k]), radius, reverse, sqrt);
  }

  /** A triangle (a, b, b) has the zero normal. */
  lemma TriNormalDegenerate(t: Tri)
    requires t.v3 == t.v2
    ensures TriNormal(t) == Zero
  {
    ZeroNormal(t.v1, t.v2);
  }

  /** A zero triangle normal gives a zero contact normal, either way round. */
  lemma NearestContactZeroNormal(dist2: real, p: ClosestPair, n: Vec3, radius: real, reverse: bool, sqrt: real -> real)
    requires n == Zero
    ensures NearestContact(dist2, p, n, radius, reverse, sqrt).normal == Zero
  {
    assert Neg(Zero) == Zero;
  }

  /**
   * The contact is valid exactly when some triangle of the box comes
   * within the capsule's actual radius of its line, up to epsilon.
   */
  lemma ObbCapsuleValid(o: ObbGeom, c: CapsuleGeom, r: real, reverse: bool, sqrt: real -> real)
    requires r == c.actualRadius
    ensures var k := ObbCapsule(o, c, reverse, sqrt);
            (k.validity == Valid <==> SomeTriangleWithin(c.actualStart, c.actualEnd, o.Triangles(), r * r + Epsilon)) &&
            (k.validity == Invalid ==> k == NoContact)
  {
    var ts := o.Triangles();
    assert ObbCapsule(o, c, reverse, sqrt) == TrianglesContact(c.actualStart, c.actualEnd, r, ts, reverse, sqrt);
    TrianglesContactValid(c.actualStart, c.actualEnd, r, ts, reverse, sqrt);
  }

  /**
   * The reverse flag changes neither validity, penetration nor the normal,
   * which is zero either way.
   */
  lemma ObbCapsuleReverse(o: ObbGeom, c: CapsuleGeom, sqrt: real -> real)
    ensures var r, f := ObbCapsule(o, c, true, sqrt), ObbCapsule(o, c, false, sqrt);
            r.validity == f.validity && r.penetration == f.penetration && r.normal == f.normal
  {
    var ts := o.Triangles();
    assert ObbCapsule(o, c, true, sqrt) == TrianglesContact(c.actualStart, c.actualEnd, c.actualRadius, ts, true, sqrt);
    assert ObbCapsule(o, c, false, sqrt) == TrianglesContact(c.actualStart, c.actualEnd, c.actualRadius, ts, false, sqrt);
    TrianglesContactReverse(c.actualStart, c.actualEnd, c.actualRadius, ts, sqrt);
    ObbCapsuleNormalIsZero(o, c, true, sqrt);
    ObbCapsuleNormalIsZero(o, c, false, sqrt);
  }

  /** The reverse flag keeps validity and penetration and turns the normal around. */
  lemma TrianglesContactReverse(start: Vec3, end: Vec3, radius: real, ts: seq<Tri>, sqrt: real -> real)
    requires |ts| > 0
    ensures var r, f := TrianglesContact(start, end, radius, ts, true, sqrt), TrianglesContact(start, end, radius, ts, false, sqrt);
            r.validity == f.validity && r.penetration == f.penetration && r.normal == Neg(f.normal)
  {
    var ds := SegmentTriangleDists(start, end, ts);
    var k := FirstMinIndex(ds);
    var p, n := LastClosest(start, end, ts), TriNormal(ts[k]);
    assert TrianglesContact(start, end, radius, ts, true, sqrt) == NearestContact(ds[k], p, n, radius, true, sqrt);
    assert TrianglesContact(start, end, radius, ts, false, sqrt) == NearestContact(ds[k], p, n, radius, false, sqrt);
    NearestContactReverse(ds[k], p, n, radius, sqrt);
  }

  lemma NearestContactReverse(dist2: real, p: ClosestPair, n: Vec3, radius: real, sqrt: real -> real)
    ensures var r, f := NearestContact(dist2, p, n, radius, true, sqrt), NearestContact(dist2, p, n, radius, false, sqrt);
            r.validity == f.validity && r.penetration == f.penetration && r.normal == Neg(f.normal)
  {
    ContactAtTurned(dist2, radius, Add(p.c1, Scale(0.5, Sub(p.c1, p.c2))), Add(p.c2, Scale(0.5, Sub(p.c2, p.c1))), n, sqrt);
    assert Neg(Neg(n)) == n;
  }

  /** The contact over ts is valid exactly when some triangle is within radius, up to epsilon. */
  lemma TrianglesContactValid(start: Vec3, end: Vec3, radius: real, ts: seq<Tri>, reverse: bool, sqrt: real -> real)
    requires |ts| > 0
    ensures var k, ds := TrianglesContact(start, end, radius, ts, reverse, sqrt), SegmentTriangleDists(start, end, ts);
            (k.validity == Valid <==> SomeTriangleWithin(start, end, ts, radius * radius + Epsilon)) &&
            (k.validity == Invalid ==> k == NoContact) &&
            (k.validity == Valid ==> k.penetration == radius - sqrt(ds[FirstMinIndex(ds)]))
  {
    var ds := SegmentTriangleDists(start, end, ts);
    var r2 := radius * radius + Epsilon;
    var k := FirstMinIndex(ds);
    var p, n := LastClosest(start, end, ts), TriNormal(ts[k]);
    assert TrianglesContact(start, end, radius, ts, reverse, sqrt) == NearestContact(ds[k], p, n, radius, reverse, sqrt);
    NearestContactValid(ds[k], p, n, radius, reverse, sqrt);
    if SomeTriangleWithin(start, end, ts, r2) {
      var j :| 0 <= j < |ts| && TriDist2(start, end, ts[j]) <= r2;
      assert ds[j] == TriDist2(start, end, ts[j]);
    }
    if ds[k] <= r2 {
      assert ds[k] == TriDist2(start, end, ts[k]);
    }
  }

  lemma NearestContactValid(dist2: real, p: ClosestPair, n: Vec3, radius: real, reverse: bool, sqrt: real -> real)
    ensures var k := NearestContact(dist2, p, n, radius, reverse, sqrt);
            (k.validity == Valid <==> dist2 <= radius * radius + Epsilon) &&
            (k.validity == Invalid ==> k == NoContact) &&
            (k.validity == Valid ==> k.penetration == radius - sqrt(dist2))
  {
  }
}
