// The Plane record: the plane n . x = d as a value (its copy and move
// constructors and assignments copy both fields), built from three points
// or from (n, d), with the queries of GeometryPlane on its own n and d.
module Planes {
  import opened Vectors
  import opened GeometryPlane

  datatype Plane = Plane(n: Vec3, d: real)
  {
    /** closestPtPointPlane: the projection of p, on the plane whenever n is not zero. */
    function ClosestPt(p: Vec3): (r: Option<Vec3>)
      ensures r == ClosestPtPointPlane(p, n, d)
      ensures n != Zero ==> r.Some? && Dot(n, r.value) == d
      ensures n != Zero && Dot(n, p) == d ==> r == Some(p)
    {
      ProjectionFacts(p, n, d);
      ClosestPtPointPlane(p, n, d)
    }

    /** isPointOutsideOfPlane: the offset of p exceeds epsilon on either side. */
    function IsOutside(p: Vec3): (b: bool)
      ensures b == IsPointOutsideOfPlane(p, n, d)
      ensures b <==> (Dot(n, p) - d > Epsilon || Dot(n, p) - d < -Epsilon)
    {
      OutsideIffOffset(p, n, d);
      IsPointOutsideOfPlane(p, n, d)
    }

    /** arePointsOnOppositeSides, as written: (p . n + d) and (q . n + d) differ in sign. */
    function OnOppositeSides(p1: Vec3, p2: Vec3): (b: bool)
      ensures b == OppositeSidesAsWritten(p1, p2, n, d)
      ensures b == OppositeSides(p1, p2, n, -d)
      ensures b == OppositeSidesAsWritten(p2, p1, n, d)
    {
      OppositeSidesAsWrittenNegatesOffset(p1, p2, n, d);
      OppositeSidesSymmetric(p1, p2, n, d);
      OppositeSidesAsWritten(p1, p2, n, d)
    }
  }

  /**
   * The three-point constructor: n = (p2 - p1) x (p3 - p1) and d = n . p1,
   * so all three points lie on the plane.
   */
  function PlaneFromPoints(p1: Vec3, p2: Vec3, p3: Vec3): (pl: Plane)
    ensures pl.n == Cross(Sub(p2, p1), Sub(p3, p1))
    ensures Dot(pl.n, p1) == pl.d && Dot(pl.n, p2) == pl.d && Dot(pl.n, p3) == pl.d
  {
    var u, v := Sub(p2, p1), Sub(p3, p1);
    var n := Cross(u, v);
    CrossOrthogonal(u, v);
    OnPlaneThrough(n, p1, p2);
    OnPlaneThrough(n, p1, p3);
    Plane(n, Dot(n, p1))
  }

  lemma ProjectionFacts(p: Vec3, n: Vec3, d: real)
    ensures n != Zero ==> ClosestPtPointPlane(p, n, d).Some? && Dot(n, ClosestPtPointPlane(p, n, d).value) == d
    ensures n != Zero && Dot(n, p) == d ==> ClosestPtPointPlane(p, n, d) == Some(p)
  {
    if n != Zero {
      ClosestPtPointPlaneOnPlane(p, n, d);
      if Dot(n, p) == d {
        ClosestPtPointPlaneFixesPlane(p, n, d);
      }
    }
  }

  /** u x v is orthogonal to u and to v. */
  lemma CrossOrthogonal(u: Vec3, v: Vec3)
    ensures Dot(Cross(u, v), u) == 0.0 && Dot(Cross(u, v), v) == 0.0
  {
  }

  /** A point q with n . (q - p) = 0 is on the plane through p with normal n. */
  lemma OnPlaneThrough(n: Vec3, p: Vec3, q: Vec3)
    requires Dot(n, Sub(q, p)) == 0.0
    ensures Dot(n, q) == Dot(n, p)
  {
  }

  /** A plane built from three distinct, non-collinear points keeps each of them: its own projection, never outside. */
  lemma PlaneFromPointsFixesVertices(p1: Vec3, p2: Vec3, p3: Vec3)
    requires Cross(Sub(p2, p1), Sub(p3, p1)) != Zero
    ensures var pl := PlaneFromPoints(p1, p2, p3);
            pl.ClosestPt(p1) == Some(p1) && pl.ClosestPt(p2) == Some(p2) && pl.ClosestPt(p3) == Some(p3) &&
            !pl.IsOutside(p1) && !pl.IsOutside(p2) && !pl.IsOutside(p3)
  {
  }
}
