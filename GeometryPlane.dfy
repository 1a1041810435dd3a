// The plane queries shared by GeometryUtils and Plane: projection onto the
// plane n . x = d, the outside test, and the opposite-sides test. A plane
// is the pair (n, d) of a normal and an offset; n need not be unit length.
module GeometryPlane {
  import opened Vectors

  /**
   * getClosestPointBetweenPointAndPlane / Plane::closestPtPointPlane:
   * p - t n with t = (n . p - d) / |n|^2. The engine divides by zero for
   * n = 0; that case is None.
   */
  function ClosestPtPointPlane(p: Vec3, n: Vec3, d: real): Option<Vec3> {
    var nn := Dot(n, n);
    if nn == 0.0 then None else Some(Sub(p, Scale(PlaneOffset(p, n, d) / nn, n)))
  }

  /** The signed offset n . p - d of p from the plane. */
  function PlaneOffset(p: Vec3, n: Vec3, d: real): real {
    Dot(n, p) - d
  }

  /** isPointOutsideOfPlane: |p . n - d| > epsilon. */
  function IsPointOutsideOfPlane(p: Vec3, n: Vec3, d: real): bool {
    Abs(Dot(p, n) - d) > Epsilon
  }

  /**
   * arePointsOnOppositeSidesOfPlane as the engine writes it: the dot
   * products of (p, 1) with (n, d), that is p . n + d, have opposite signs.
   */
  function OppositeSidesAsWritten(p1: Vec3, p2: Vec3, n: Vec3, d: real): bool {
    (Dot(p1, n) + d) * (Dot(p2, n) + d) < 0.0
  }

  /**
   * The opposite-sides test for the engine's own plane convention n . x = d
   * (the one the constructor, the projection and the outside test use):
   * the offsets p . n - d have opposite signs.
   */
  function OppositeSides(p1: Vec3, p2: Vec3, n: Vec3, d: real): bool {
    (Dot(p1, n) - d) * (Dot(p2, n) - d) < 0.0
  }

  /** n . (p - t n) = n . p - t |n|^2. */
  lemma DotAfterStep(p: Vec3, n: Vec3, t: real)
    ensures Dot(n, Sub(p, Scale(t, n))) == Dot(n, p) - t * Dot(n, n)
  {
  }

  lemma QuotientTimes(x: real, y: real)
    requires y != 0.0
    ensures (x / y) * y == x
  {
  }

  /** The projection lies on the plane. */
  lemma ClosestPtPointPlaneOnPlane(p: Vec3, n: Vec3, d: real)
    requires n != Zero
    ensures ClosestPtPointPlane(p, n, d).Some?
    ensures Dot(n, ClosestPtPointPlane(p, n, d).value) == d
  {
    LengthSqPositive(n);
    var t := PlaneOffset(p, n, d) / Dot(n, n);
    DotAfterStep(p, n, t);
    QuotientTimes(PlaneOffset(p, n, d), Dot(n, n));
  }

  /** A point already on the plane is its own projection. */
  lemma ClosestPtPointPlaneFixesPlane(p: Vec3, n: Vec3, d: real)
    requires n != Zero && Dot(n, p) == d
    ensures ClosestPtPointPlane(p, n, d) == Some(p)
  {
    LengthSqPositive(n);
    assert PlaneOffset(p, n, d) / Dot(n, n) == 0.0;
  }

  /**
   * The projection is the point of the plane closest to p: no point x of
   * the plane is nearer.
   */
  lemma ClosestPtPointPlaneIsClosest(p: Vec3, n: Vec3, d: real, x: Vec3)
    requires n != Zero && Dot(n, x) == d
    ensures ClosestPtPointPlane(p, n, d).Some?
    ensures DistSq(p, ClosestPtPointPlane(p, n, d).value) <= DistSq(p, x)
  {
    ClosestPtPointPlaneOnPlane(p, n, d);
    var q := ClosestPtPointPlane(p, n, d).value;
    var t := PlaneOffset(p, n, d) / Dot(n, n);
    assert Sub(p, q) == Scale(t, n);
    ScaledDotZero(t, n, Sub(q, x));
    OrthogonalIsCloser(p, q, x);
  }

  /** (t n) . w = t (n . w), which vanishes when n . w does. */
  lemma ScaledDotZero(t: real, n: Vec3, w: Vec3)
    requires Dot(n, w) == 0.0
    ensures Dot(Scale(t, n), w) == 0.0
  {
    assert Dot(Scale(t, n), w) == t * Dot(n, w);
  }

  /**
   * If p - q is orthogonal to q - x, then |p - x|^2 = |p - q|^2 + |q - x|^2,
   * so q is at least as close to p as x.
   */
  lemma OrthogonalIsCloser(p: Vec3, q: Vec3, x: Vec3)
    requires Dot(Sub(p, q), Sub(q, x)) == 0.0
    ensures DistSq(p, q) <= DistSq(p, x)
  {
    var u, w := Sub(p, q), Sub(q, x);
    assert Sub(x, p) == Neg(Add(u, w));
    assert LengthSq(Sub(x, p)) == LengthSq(u) + 2.0 * Dot(u, w) + LengthSq(w);
    LengthSqNonNegative(w);
    assert Sub(q, p) == Neg(u);
  }

  /** A projected point is never outside the plane. */
  lemma ProjectionNotOutside(p: Vec3, n: Vec3, d: real)
    requires n != Zero
    ensures ClosestPtPointPlane(p, n, d).Some?
    ensures !IsPointOutsideOfPlane(ClosestPtPointPlane(p, n, d).value, n, d)
  {
    ClosestPtPointPlaneOnPlane(p, n, d);
    var q := ClosestPtPointPlane(p, n, d).value;
    assert Dot(q, n) == Dot(n, q);
  }

  /** Points at an offset beyond epsilon on either side are outside, and only those. */
  lemma OutsideIffOffset(p: Vec3, n: Vec3, d: real)
    ensures IsPointOutsideOfPlane(p, n, d) <==>
            (PlaneOffset(p, n, d) > Epsilon || PlaneOffset(p, n, d) < -Epsilon)
  {
    assert Dot(p, n) == Dot(n, p);
  }

  /** The engine's test is the corrected test for the plane n . x = -d. */
  lemma OppositeSidesAsWrittenNegatesOffset(p1: Vec3, p2: Vec3, n: Vec3, d: real)
    ensures OppositeSidesAsWritten(p1, p2, n, d) == OppositeSides(p1, p2, n, -d)
  {
  }

  /**
   * The plane x = 1 (n = (1, 0, 0), d = 1) separates the origin from
   * (2, 0, 0), but the engine's test reports them on the same side.
   */
  lemma OppositeSidesAsWrittenMissesSeparation()
    ensures !OppositeSidesAsWritten(Zero, Vec3(2.0, 0.0, 0.0), UnitX, 1.0)
    ensures OppositeSides(Zero, Vec3(2.0, 0.0, 0.0), UnitX, 1.0)
    ensures Dot(UnitX, Zero) < 1.0 < Dot(UnitX, Vec3(2.0, 0.0, 0.0))
  {
    assert Dot(Zero, UnitX) == Dot(UnitX, Zero) == 0.0;
    assert Dot(Vec3(2.0, 0.0, 0.0), UnitX) == Dot(UnitX, Vec3(2.0, 0.0, 0.0)) == 2.0;
  }

  lemma OppositeSidesSymmetric(p1: Vec3, p2: Vec3, n: Vec3, d: real)
    ensures OppositeSides(p1, p2, n, d) == OppositeSides(p2, p1, n, d)
    ensures OppositeSidesAsWritten(p1, p2, n, d) == OppositeSidesAsWritten(p2, p1, n, d)
  {
  }

  /**
   * Points on opposite sides of n . x = d: the segment between them
   * crosses the plane strictly inside, at the parameter where the offset
   * changes sign.
   */
  lemma OppositeSidesCross(p1: Vec3, p2: Vec3, n: Vec3, d: real)
    requires OppositeSides(p1, p2, n, d)
    ensures Dot(p1, n) != Dot(p2, n)
    ensures var t := CrossingT(Dot(p1, n) - d, Dot(p2, n) - d);
            0.0 < t < 1.0 && Dot(PointAt(p1, p2, t), n) == d
  {
    CrossingAt(Dot(p1, n), Dot(p2, n), d);
    DotOfLerp(p1, p2, CrossingT(Dot(p1, n) - d, Dot(p2, n) - d), n);
  }

  /** The parameter s1 / (s1 - s2) where an offset going from s1 to s2 is zero. */
  function CrossingT(s1: real, s2: real): real
    requires s1 != s2
  {
    s1 / (s1 - s2)
  }

  /** x1 + t (x2 - x1). */
  function Lerp(x1: real, x2: real, t: real): real {
    x1 + t * (x2 - x1)
  }

  lemma DotOfLerp(p1: Vec3, p2: Vec3, t: real, n: Vec3)
    ensures Dot(PointAt(p1, p2, t), n) == Lerp(Dot(p1, n), Dot(p2, n), t)
  {
  }

  lemma CrossingAt(x1: real, x2: real, d: real)
    requires (x1 - d) * (x2 - d) < 0.0
    ensures x1 != x2
    ensures var t := CrossingT(x1 - d, x2 - d);
            0.0 < t < 1.0 && Lerp(x1, x2, t) == d
  {
    var s1, s2 := x1 - d, x2 - d;
    if s1 >= 0.0 && s2 >= 0.0 {
      MulNonNegative(s1, s2);
    } else if s1 <= 0.0 && s2 <= 0.0 {
      MulNonPositive(s1, s2);
    }
    var t := s1 / (s1 - s2);
    assert t * (s1 - s2) == s1;
  }
}
