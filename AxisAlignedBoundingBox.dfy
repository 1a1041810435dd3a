// The axis-aligned bounding box: a scene node that keeps the half extents
// it was given (initialHalfExtents) and the half extents of the smallest
// axis-aligned box around them once the node's transform is applied
// (halfExtents), refitted whenever either changes. The predicates see a
// box through AabbGeom (world center and refitted half extents); the
// other operand is a SphereGeom or another AabbGeom.
module AlignedBoxes {
  import opened Vectors
  import opened SceneObjects
  import opened Volumes

  // ---------------------------------------------------------------------
  // The refit
  // ---------------------------------------------------------------------

  /** |m h|: one term of the refit. */
  function RefitTerm(m: real, h: real): real {
    Abs(m * h)
  }

  /** The first n terms of component i of the refit: the sum over j < n of |M[j][i] h_j|. */
  function RefitSum(M: Mat3, h: Vec3, i: nat, n: nat): real
    requires i < 3 && n <= 3
  {
    if n == 0 then 0.0 else RefitSum(M, h, i, n - 1) + RefitTerm(M[n - 1][i], At(h, n - 1))
  }

  /** The refitted half extents: component i is the sum over j of |M[j][i] h_j|. */
  function Refit(M: Mat3, h: Vec3): Vec3 {
    Vec3(RefitSum(M, h, 0, 3), RefitSum(M, h, 1, 3), RefitSum(M, h, 2, 3))
  }

  /** Every partial refit sum is non-negative. */
  lemma {:induction false} RefitSumNonNegative(M: Mat3, h: Vec3, i: nat, n: nat)
    requires i < 3 && n <= 3
    ensures RefitSum(M, h, i, n) >= 0.0
  {
    if n > 0 {
      RefitSumNonNegative(M, h, i, n - 1);
    }
  }

  /** The refitted half extents are never negative, whatever the signs of the initial ones. */
  lemma RefitNonNegative(M: Mat3, h: Vec3)
    ensures Refit(M, h).x >= 0.0 && Refit(M, h).y >= 0.0 && Refit(M, h).z >= 0.0
  {
    RefitSumNonNegative(M, h, 0, 3);
    RefitSumNonNegative(M, h, 1, 3);
    RefitSumNonNegative(M, h, 2, 3);
  }

  /** Under the identity the refit is the magnitude of the initial half extents. */
  lemma RefitIdentity(M: Mat3, h: Vec3)
    requires M == [[1.0, 0.0, 0.0], [0.0, 1.0, 0.0], [0.0, 0.0, 1.0]]
    ensures Refit(M, h) == AbsVec(h)
  {
    RefitSumExpanded(M, h, 0);
    RefitSumExpanded(M, h, 1);
    RefitSumExpanded(M, h, 2);
  }

  /** The refit sum written out over its three terms. */
  lemma RefitSumExpanded(M: Mat3, h: Vec3, i: nat)
    requires i < 3
    ensures RefitSum(M, h, i, 3) == RefitTerm(M[0][i], h.x) + RefitTerm(M[1][i], h.y) + RefitTerm(M[2][i], h.z)
  {
    assert RefitSum(M, h, i, 1) == RefitTerm(M[0][i], h.x);
    assert RefitSum(M, h, i, 2) == RefitSum(M, h, i, 1) + RefitTerm(M[1][i], h.y);
  }

  /** Component i of M v: the sum over columns c of M[c][i] v_c. */
  lemma MulVecAt(M: Mat3, v: Vec3, i: nat)
    requires i < 3
    ensures At(MulVec(M, v), i) == M[0][i] * v.x + M[1][i] * v.y + M[2][i] * v.z
  {
  }

  /** |a + b + c| <= A + B + C when each term is bounded by its own. */
  lemma AbsSumBound(a: real, b: real, c: real, A: real, B: real, C: real)
    requires Abs(a) <= A && Abs(b) <= B && Abs(c) <= C
    ensures Abs(a + b + c) <= A + B + C
  {
  }

  /** |m u| <= |m h| when |u| <= |h|. */
  lemma AbsProductBound(m: real, u: real, h: real)
    requires Abs(u) <= Abs(h)
    ensures Abs(m * u) <= Abs(m * h)
  {
    AbsProduct(m, u);
    AbsProduct(m, h);
    MulNonNegative(Abs(m), Abs(h) - Abs(u));
    assert Abs(m) * (Abs(h) - Abs(u)) == Abs(m) * Abs(h) - Abs(m) * Abs(u);
  }

  /** |t| <= |m0 h0| + |m1 h1| + |m2 h2| for t = m0 u0 + m1 u1 + m2 u2 with each |u_j| <= |h_j|. */
  lemma TermsBound(t: real, m0: real, m1: real, m2: real, u0: real, u1: real, u2: real, h0: real, h1: real, h2: real)
    requires t == m0 * u0 + m1 * u1 + m2 * u2
    requires Abs(u0) <= Abs(h0) && Abs(u1) <= Abs(h1) && Abs(u2) <= Abs(h2)
    ensures Abs(t) <= RefitTerm(m0, h0) + RefitTerm(m1, h1) + RefitTerm(m2, h2)
  {
    AbsProductBound(m0, u0, h0);
    AbsProductBound(m1, u1, h1);
    AbsProductBound(m2, u2, h2);
    AbsSumBound(m0 * u0, m1 * u1, m2 * u2, RefitTerm(m0, h0), RefitTerm(m1, h1), RefitTerm(m2, h2));
  }

  /** Component i of M u is bounded by component i of the refit when u is within the initial box. */
  lemma RefitBoundsComponent(M: Mat3, h: Vec3, u: Vec3, i: nat)
    requires i < 3
    requires Abs(u.x) <= Abs(h.x) && Abs(u.y) <= Abs(h.y) && Abs(u.z) <= Abs(h.z)
    ensures Abs(At(MulVec(M, u), i)) <= RefitSum(M, h, i, 3)
  {
    RowBound(M, h, u, i);
    RefitSumExpanded(M, h, i);
  }

  /** The same bound against the three refit terms written out. */
  lemma RowBound(M: Mat3, h: Vec3, u: Vec3, i: nat)
    requires i < 3
    requires Abs(u.x) <= Abs(h.x) && Abs(u.y) <= Abs(h.y) && Abs(u.z) <= Abs(h.z)
    ensures Abs(At(MulVec(M, u), i)) <= RefitTerm(M[0][i], h.x) + RefitTerm(M[1][i], h.y) + RefitTerm(M[2][i], h.z)
  {
    MulVecAt(M, u, i);
    TermsBound(At(MulVec(M, u), i), M[0][i], M[1][i], M[2][i], u.x, u.y, u.z, h.x, h.y, h.z);
  }

  /**
   * The refitted box encloses the transformed initial box: every point
   * M u with u inside the initial half extents lies within the refitted
   * half extents.
   */
  lemma RefitEncloses(M: Mat3, h: Vec3, u: Vec3)
    requires Abs(u.x) <= Abs(h.x) && Abs(u.y) <= Abs(h.y) && Abs(u.z) <= Abs(h.z)
    ensures WithinExtents(MulVec(M, u), Refit(M, h))
  {
    RefitBoundsComponent(M, h, u, 0);
    RefitBoundsComponent(M, h, u, 1);
    RefitBoundsComponent(M, h, u, 2);
  }

  /** The sign that makes m s non-negative: +1 for m >= 0, -1 otherwise. */
  function SignFor(m: real): (s: real)
    ensures (s == 1.0 || s == -1.0) && Abs(m) == s * m
  {
    if m >= 0.0 then 1.0 else -1.0
  }

  /**
   * The corner of the initial box whose signs follow the entries
   * M[0][i], M[1][i], M[2][i]: each coordinate has the magnitude of the
   * initial half extent.
   */
  function SignedCorner(M: Mat3, h: Vec3, i: nat): (u: Vec3)
    requires i < 3
    ensures Abs(u.x) == Abs(h.x) && Abs(u.y) == Abs(h.y) && Abs(u.z) == Abs(h.z)
  {
    var u := Vec3(SignFor(M[0][i]) * Abs(h.x), SignFor(M[1][i]) * Abs(h.y), SignFor(M[2][i]) * Abs(h.z));
    CornerTerm(M[0][i], h.x, u.x);
    CornerTerm(M[1][i], h.y, u.y);
    CornerTerm(M[2][i], h.z, u.z);
    u
  }

  /**
   * The refit is the smallest such box: on each axis i the signed corner
   * of the initial box is carried exactly onto the refitted half extent.
   */
  lemma RefitAttained(M: Mat3, h: Vec3, i: nat)
    requires i < 3
    ensures At(MulVec(M, SignedCorner(M, h, i)), i) == RefitSum(M, h, i, 3)
  {
    CornerRow(M, h, i);
    RefitSumExpanded(M, h, i);
  }

  /** The signed corner against the three refit terms written out. */
  lemma CornerRow(M: Mat3, h: Vec3, i: nat)
    requires i < 3
    ensures At(MulVec(M, SignedCorner(M, h, i)), i) == RefitTerm(M[0][i], h.x) + RefitTerm(M[1][i], h.y) + RefitTerm(M[2][i], h.z)
  {
    var u := SignedCorner(M, h, i);
    MulVecAt(M, u, i);
    CornerTerms(At(MulVec(M, u), i), M[0][i], M[1][i], M[2][i], u.x, u.y, u.z, h.x, h.y, h.z);
  }

  /** For the sign-chosen corner u, t = m0 u0 + m1 u1 + m2 u2 is the refit sum and each |u_j| = |h_j|. */
  lemma CornerTerms(t: real, m0: real, m1: real, m2: real, u0: real, u1: real, u2: real, h0: real, h1: real, h2: real)
    requires t == m0 * u0 + m1 * u1 + m2 * u2
    requires u0 == SignFor(m0) * Abs(h0) && u1 == SignFor(m1) * Abs(h1) && u2 == SignFor(m2) * Abs(h2)
    ensures t == RefitTerm(m0, h0) + RefitTerm(m1, h1) + RefitTerm(m2, h2)
    ensures Abs(u0) == Abs(h0) && Abs(u1) == Abs(h1) && Abs(u2) == Abs(h2)
  {
    CornerTerm(m0, h0, u0);
    CornerTerm(m1, h1, u1);
    CornerTerm(m2, h2, u2);
  }

  /** m (sign(m) |h|) = |m h|, and the corner coordinate sign(m) |h| has magnitude |h|. */
  lemma CornerTerm(m: real, h: real, u: real)
    requires u == SignFor(m) * Abs(h)
    ensures m * u == RefitTerm(m, h)
    ensures Abs(u) == Abs(h)
  {
    AbsProduct(m, h);
    assert m * u == (SignFor(m) * m) * Abs(h);
  }

  // ---------------------------------------------------------------------
  // getSquaredDistancePtPointAABB
  // ---------------------------------------------------------------------

  /** The contribution of one axis: the squared excess below lo plus the squared excess above hi. */
  function AxisExcess(v: real, lo: real, hi: real): real {
    (if v < lo then Square(lo - v) else 0.0) + (if v > hi then Square(v - hi) else 0.0)
  }

  /** The contributions of the first n axes. */
  function ExcessSum(pt: Vec3, lo: Vec3, hi: Vec3, n: nat): real
    requires n <= 3
  {
    if n == 0 then 0.0 else ExcessSum(pt, lo, hi, n - 1) + AxisExcess(At(pt, n - 1), At(lo, n - 1), At(hi, n - 1))
  }

  /** The squared distance from pt to the box [lo, hi], summed over the three axes. */
  function SqDistPointBox(pt: Vec3, lo: Vec3, hi: Vec3): real {
    ExcessSum(pt, lo, hi, 3)
  }

  /** lo <= p <= hi on every axis. */
  predicate InBounds(p: Vec3, lo: Vec3, hi: Vec3) {
    lo.x <= p.x <= hi.x && lo.y <= p.y <= hi.y && lo.z <= p.z <= hi.z
  }

  /** The point of [lo, hi] nearest to p, clamped axis by axis. */
  function ClampPoint(p: Vec3, lo: Vec3, hi: Vec3): (q: Vec3)
    requires lo.x <= hi.x && lo.y <= hi.y && lo.z <= hi.z
    ensures InBounds(q, lo, hi)
  {
    Vec3(Clamp(p.x, lo.x, hi.x), Clamp(p.y, lo.y, hi.y), Clamp(p.z, lo.z, hi.z))
  }

  lemma SquareNonNegative(x: real)
    ensures Square(x) >= 0.0
  {
  }

  lemma SquarePositive(x: real)
    requires x != 0.0
    ensures Square(x) > 0.0
  {
    SquareStrictMonotone(0.0, Abs(x));
  }

  /** An axis contributes nothing exactly when the coordinate is within [lo, hi]. */
  lemma AxisExcessZeroIff(v: real, lo: real, hi: real)
    ensures AxisExcess(v, lo, hi) >= 0.0
    ensures AxisExcess(v, lo, hi) == 0.0 <==> lo <= v <= hi
  {
    var below := if v < lo then Square(lo - v) else 0.0;
    var above := if v > hi then Square(v - hi) else 0.0;
    assert AxisExcess(v, lo, hi) == below + above;
    SquareNonNegative(lo - v);
    SquareNonNegative(v - hi);
    if v < lo {
      SquarePositive(lo - v);
      assert below > 0.0 && above >= 0.0;
    } else if v > hi {
      SquarePositive(v - hi);
      assert below == 0.0 && above > 0.0;
    } else {
      assert below == 0.0 && above == 0.0;
    }
  }

  /** The squared distance written out over the three axes. */
  lemma ExcessSumExpanded(pt: Vec3, lo: Vec3, hi: Vec3)
    ensures SqDistPointBox(pt, lo, hi) == AxisExcess(pt.x, lo.x, hi.x) + AxisExcess(pt.y, lo.y, hi.y) + AxisExcess(pt.z, lo.z, hi.z)
  {
    assert ExcessSum(pt, lo, hi, 1) == AxisExcess(pt.x, lo.x, hi.x);
    assert ExcessSum(pt, lo, hi, 2) == ExcessSum(pt, lo, hi, 1) + AxisExcess(pt.y, lo.y, hi.y);
  }

  /** The squared distance between two points written out over the three axes. */
  lemma DistSqExpanded(p: Vec3, q: Vec3)
    ensures DistSq(p, q) == Square(q.x - p.x) + Square(q.y - p.y) + Square(q.z - p.z)
  {
  }

  /** The squared distance is non-negative, and zero exactly when the point is inside the box. */
  lemma SqDistZeroIff(pt: Vec3, lo: Vec3, hi: Vec3)
    ensures SqDistPointBox(pt, lo, hi) >= 0.0
    ensures SqDistPointBox(pt, lo, hi) == 0.0 <==> InBounds(pt, lo, hi)
  {
    ExcessSumExpanded(pt, lo, hi);
    AxisExcessZeroIff(pt.x, lo.x, hi.x);
    AxisExcessZeroIff(pt.y, lo.y, hi.y);
    AxisExcessZeroIff(pt.z, lo.z, hi.z);
  }

  /** On one axis, the excess is the squared gap to the clamped coordinate and at most the squared gap to any coordinate in [lo, hi]. */
  lemma AxisExcessIsGap(v: real, lo: real, hi: real, q: real)
    requires lo <= hi && lo <= q <= hi
    ensures AxisExcess(v, lo, hi) == Square(Clamp(v, lo, hi) - v)
    ensures AxisExcess(v, lo, hi) <= Square(q - v)
  {
    if v < lo {
      SquareMonotone(lo - v, q - v);
    } else if v > hi {
      SquareMonotone(v - hi, v - q);
      assert Square(q - v) == (v - q) * (v - q);
    } else {
      SquareNonNegative(q - v);
    }
  }

  /**
   * For a box with lo <= hi the sum is the squared distance to the
   * nearest point of the box: it is reached at the clamped point and is
   * at most the squared distance to any point of the box.
   */
  lemma SqDistIsDistance(pt: Vec3, lo: Vec3, hi: Vec3, q: Vec3)
    requires lo.x <= hi.x && lo.y <= hi.y && lo.z <= hi.z
    requires InBounds(q, lo, hi)
    ensures SqDistPointBox(pt, lo, hi) == DistSq(pt, ClampPoint(pt, lo, hi))
    ensures SqDistPointBox(pt, lo, hi) <= DistSq(pt, q)
  {
    ExcessSumExpanded(pt, lo, hi);
    AxisExcessIsGap(pt.x, lo.x, hi.x, q.x);
    AxisExcessIsGap(pt.y, lo.y, hi.y, q.y);
    AxisExcessIsGap(pt.z, lo.z, hi.z, q.z);
    DistSqExpanded(pt, ClampPoint(pt, lo, hi));
    DistSqExpanded(pt, q);
  }

  // ---------------------------------------------------------------------
  // The box and its loops
  // ---------------------------------------------------------------------

  class AxisAlignedBoundingBox {
    var initialHalfExtents: Vec3
    var halfExtents: Vec3
    var name: string
    var transform: Transform
    var children: seq<SceneObject?>

    /**
     * A new box: initial half extents, name and transform; no children.
     * The refitted half extents are initialised from themselves, so their
     * value is not determined.
     */
    constructor (initialHalfExtents: Vec3, name: string, transform: Transform)
      ensures this.initialHalfExtents == initialHalfExtents && this.name == name && this.transform == transform
      ensures children == []
    {
      this.initialHalfExtents := initialHalfExtents;
      this.name := name;
      this.transform := transform;
      children := [];
    }

    /** The copy (and move) constructor: both half extents, name, transform and children. */
    constructor Copy(aabb: AxisAlignedBoundingBox)
      ensures initialHalfExtents == aabb.initialHalfExtents && halfExtents == aabb.halfExtents
      ensures name == aabb.name && transform == aabb.transform && children == aabb.children
    {
      initialHalfExtents := aabb.initialHalfExtents;
      halfExtents := aabb.halfExtents;
      name := aabb.name;
      transform := aabb.transform;
      children := aabb.children;
    }

    /** Copy (and move) assignment: the same five fields. */
    method Assign(aabb: AxisAlignedBoundingBox)
      modifies this
      ensures initialHalfExtents == old(aabb.initialHalfExtents) && halfExtents == old(aabb.halfExtents)
      ensures name == old(aabb.name) && transform == old(aabb.transform) && children == old(aabb.children)
    {
      initialHalfExtents, halfExtents := aabb.initialHalfExtents, aabb.halfExtents;
      name, transform, children := aabb.name, aabb.transform, aabb.children;
    }

    /**
     * The nested loop shared by setHalfExtents and update: halfExtents[i]
     * is reset to 0 and accumulates |upperLeft[j][i] initialHalfExtents[j]|
     * over j. Only halfExtents changes.
     */
    method RefitHalfExtents(upperLeft: Mat3)
      modifies this
      ensures halfExtents == Refit(upperLeft, initialHalfExtents)
      ensures initialHalfExtents == old(initialHalfExtents) && name == old(name)
      ensures transform == old(transform) && children == old(children)
    {
      for i := 0 to 3
        invariant forall k :: 0 <= k < i ==> At(halfExtents, k) == RefitSum(upperLeft, initialHalfExtents, k, 3)
        invariant initialHalfExtents == old(initialHalfExtents) && name == old(name)
        invariant transform == old(transform) && children == old(children)
      {
        halfExtents := SetAt(halfExtents, i, 0.0);
        for j := 0 to 3
          invariant At(halfExtents, i) == RefitSum(upperLeft, initialHalfExtents, i, j)
          invariant forall k :: 0 <= k < i ==> At(halfExtents, k) == RefitSum(upperLeft, initialHalfExtents, k, 3)
          invariant initialHalfExtents == old(initialHalfExtents) && name == old(name)
          invariant transform == old(transform) && children == old(children)
        {
          halfExtents := SetAt(halfExtents, i, At(halfExtents, i) + Abs(upperLeft[j][i] * At(initialHalfExtents, j)));
        }
      }
      assert At(halfExtents, 0) == halfExtents.x && At(halfExtents, 1) == halfExtents.y && At(halfExtents, 2) == halfExtents.z;
    }

    /**
     * setHalfExtents: the given half extents become the initial ones and
     * the box is refitted with the upper-left 3x3 of the current
     * transform's matrix.
     */
    method SetHalfExtents(h: Vec3, upperLeft: Mat3)
      modifies this
      ensures initialHalfExtents == h && halfExtents == Refit(upperLeft, h)
      ensures name == old(name) && transform == old(transform) && children == old(children)
    {
      initialHalfExtents := h;
      RefitHalfExtents(upperLeft);
    }

    /**
     * update: the box is refitted with the upper-left 3x3 of the new
     * transform's matrix; applying the same transform again leaves the
     * half extents as they are, since the refit reads only the initial
     * ones. The engine then hands the transform to SceneObject::update,
     * which has no definition in the sources, so the contract says nothing
     * about the stored transform.
     */
    method Update(upperLeft: Mat3)
      modifies this
      ensures halfExtents == Refit(upperLeft, initialHalfExtents)
      ensures initialHalfExtents == old(initialHalfExtents)
      ensures name == old(name) && children == old(children)
    {
      RefitHalfExtents(upperLeft);
    }

    /** The box as the predicates see it, given the world center of its transform. */
    function Geom(center: Vec3): (b: AabbGeom)
      reads this
      ensures b.center == center && b.halfExtents == halfExtents
    {
      AabbGeom(center, halfExtents)
    }

    /**
     * getSquaredDistancePtPointAABB: the loop over the axes adds the
     * squared excess below min and, separately, above max.
     */
    method GetSquaredDistancePtPointAABB(center: Vec3, pt: Vec3) returns (sqDist: real)
      ensures sqDist == SqDistPointBox(pt, Sub(center, halfExtents), Add(center, halfExtents))
    {
      var lo, hi := Sub(center, halfExtents), Add(center, halfExtents);
      sqDist := 0.0;
      for i := 0 to 3
        invariant sqDist == ExcessSum(pt, lo, hi, i)
      {
        var v := At(pt, i);
        if v < At(lo, i) {
          sqDist := sqDist + Square(At(lo, i) - v);
        }
        if v > At(hi, i) {
          sqDist := sqDist + Square(v - At(hi, i));
        }
      }
    }
  }

  // ---------------------------------------------------------------------
  // The predicates
  // ---------------------------------------------------------------------

  /** intersectsVolume(sphere): the squared distance from the sphere's center against its local radius squared. */
  predicate IntersectsSphere(b: AabbGeom, s: SphereGeom) {
    SqDistPointBox(s.center, b.Min(), b.Max()) <= s.radius * s.radius
  }

  /** intersectsVolume(AABB): the centers are at most the sum of the half extents apart on every axis. */
  predicate IntersectsAabb(a: AabbGeom, b: AabbGeom) {
    forall i :: 0 <= i < 3 ==> Abs(At(a.center, i) - At(b.center, i)) <= At(a.halfExtents, i) + At(b.halfExtents, i)
  }

  /** [innerLo, innerHi] lies within [outerLo, outerHi] on every axis. */
  predicate IntervalsWithin(innerLo: Vec3, innerHi: Vec3, outerLo: Vec3, outerHi: Vec3) {
    forall i :: 0 <= i < 3 ==> At(outerLo, i) <= At(innerLo, i) && At(innerHi, i) <= At(outerHi, i)
  }

  /** enclosesVolume(sphere): the cube center +/- r (local radius) within the box. */
  predicate EnclosesSphere(b: AabbGeom, s: SphereGeom) {
    IntervalsWithin(Sub(s.center, Splat(s.radius)), Add(s.center, Splat(s.radius)), b.Min(), b.Max())
  }

  /** enclosesVolume(AABB): the other box's [min, max] within this box's. */
  predicate EnclosesAabb(a: AabbGeom, b: AabbGeom) {
    IntervalsWithin(b.Min(), b.Max(), a.Min(), a.Max())
  }

  /** isEnclosedByVolume(sphere) as written: the box within the cube center +/- r, not within the sphere. */
  predicate IsEnclosedBySphere(b: AabbGeom, s: SphereGeom) {
    IntervalsWithin(b.Min(), b.Max(), Sub(s.center, Splat(s.radius)), Add(s.center, Splat(s.radius)))
  }

  /** isEnclosedByVolume(sphere) as the oriented box does it: every corner within the radius. */
  predicate IsEnclosedBySphereCorrected(b: AabbGeom, s: SphereGeom) {
    AllWithinRadius(b.Corners(), s.center, s.radius * s.radius)
  }

  /** isEnclosedByVolume(AABB): this box's [min, max] within the other's. */
  predicate IsEnclosedByAabb(a: AabbGeom, b: AabbGeom) {
    IntervalsWithin(a.Min(), a.Max(), b.Min(), b.Max())
  }

  /** The loop of intersectsVolume(AABB), false at the first axis where the boxes are apart. */
  method IntersectsAabbSteps(a: AabbGeom, b: AabbGeom) returns (r: bool)
    ensures r == IntersectsAabb(a, b)
  {
    for i := 0 to 3
      invariant forall k :: 0 <= k < i ==> Abs(At(a.center, k) - At(b.center, k)) <= At(a.halfExtents, k) + At(b.halfExtents, k)
    {
      if Abs(At(a.center, i) - At(b.center, i)) > At(a.halfExtents, i) + At(b.halfExtents, i) {
        return false;
      }
    }
    return true;
  }

  /**
   * The loop of the four containment branches: false as soon as bMin is
   * below min or bMax above max on some axis. enclosesVolume passes the
   * other volume's bounds as bMin, bMax; isEnclosedByVolume tests the
   * reverse comparisons, which is the same loop with the roles swapped.
   */
  method CheckIntervalsWithin(min: Vec3, max: Vec3, bMin: Vec3, bMax: Vec3) returns (r: bool)
    ensures r == IntervalsWithin(bMin, bMax, min, max)
  {
    for i := 0 to 3
      invariant forall k :: 0 <= k < i ==> At(min, k) <= At(bMin, k) && At(bMax, k) <= At(max, k)
    {
      if At(bMin, i) < At(min, i) {
        return false;
      } else if At(bMax, i) > At(max, i) {
        return false;
      }
    }
    return true;
  }

  // ---------------------------------------------------------------------
  // What the predicates mean
  // ---------------------------------------------------------------------

  /**
   * For a box with non-negative half extents, the sphere test holds
   * exactly when some point of the box is within the local radius of the
   * sphere's center.
   */
  lemma IntersectsSphereIff(b: AabbGeom, s: SphereGeom)
    requires b.halfExtents.x >= 0.0 && b.halfExtents.y >= 0.0 && b.halfExtents.z >= 0.0
    ensures IntersectsSphere(b, s) <==>
            exists q :: InBounds(q, b.Min(), b.Max()) && DistSq(s.center, q) <= s.radius * s.radius
  {
    var c := ClampPoint(s.center, b.Min(), b.Max());
    SqDistIsDistance(s.center, b.Min(), b.Max(), c);
    if exists q :: InBounds(q, b.Min(), b.Max()) && DistSq(s.center, q) <= s.radius * s.radius {
      var q :| InBounds(q, b.Min(), b.Max()) && DistSq(s.center, q) <= s.radius * s.radius;
      SqDistIsDistance(s.center, b.Min(), b.Max(), q);
    }
  }

  /** The box test is symmetric: the first box meets the second exactly when the second meets the first. */
  lemma IntersectsAabbSymmetric(a: AabbGeom, b: AabbGeom)
    ensures IntersectsAabb(a, b) == IntersectsAabb(b, a)
  {
    forall i | 0 <= i < 3
      ensures Abs(At(a.center, i) - At(b.center, i)) == Abs(At(b.center, i) - At(a.center, i))
    {
    }
  }

  /**
   * For boxes with non-negative half extents, the box test holds exactly
   * when the two boxes share a point.
   */
  lemma IntersectsAabbIff(a: AabbGeom, b: AabbGeom)
    requires a.halfExtents.x >= 0.0 && a.halfExtents.y >= 0.0 && a.halfExtents.z >= 0.0
    requires b.halfExtents.x >= 0.0 && b.halfExtents.y >= 0.0 && b.halfExtents.z >= 0.0
    ensures IntersectsAabb(a, b) <==> exists q :: InBounds(q, a.Min(), a.Max()) && InBounds(q, b.Min(), b.Max())
  {
    if IntersectsAabb(a, b) {
      assert Abs(a.center.x - b.center.x) <= a.halfExtents.x + b.halfExtents.x by { assert At(a.center, 0) == a.center.x; }
      assert Abs(a.center.y - b.center.y) <= a.halfExtents.y + b.halfExtents.y by { assert At(a.center, 1) == a.center.y; }
      assert Abs(a.center.z - b.center.z) <= a.halfExtents.z + b.halfExtents.z by { assert At(a.center, 2) == a.center.z; }
      var q := Vec3(Max(a.Min().x, b.Min().x), Max(a.Min().y, b.Min().y), Max(a.Min().z, b.Min().z));
      assert InBounds(q, a.Min(), a.Max()) && InBounds(q, b.Min(), b.Max());
    }
    if exists q :: InBounds(q, a.Min(), a.Max()) && InBounds(q, b.Min(), b.Max()) {
      var q :| InBounds(q, a.Min(), a.Max()) && InBounds(q, b.Min(), b.Max());
      forall i | 0 <= i < 3
        ensures Abs(At(a.center, i) - At(b.center, i)) <= At(a.halfExtents, i) + At(b.halfExtents, i)
      {
      }
    }
  }

  /** Every box with non-negative half extents encloses itself. */
  lemma EnclosesAabbReflexive(a: AabbGeom)
    requires a.halfExtents.x >= 0.0 && a.halfExtents.y >= 0.0 && a.halfExtents.z >= 0.0
    ensures EnclosesAabb(a, a)
  {
  }

  /** Being enclosed by b is b enclosing: the same comparisons with the roles swapped. */
  lemma IsEnclosedByAabbDual(a: AabbGeom, b: AabbGeom)
    ensures IsEnclosedByAabb(a, b) == EnclosesAabb(b, a)
  {
  }

  /** Every point of an enclosed box lies in the enclosing box. */
  lemma EnclosesAabbHoldsPoints(a: AabbGeom, b: AabbGeom, q: Vec3)
    requires EnclosesAabb(a, b) && InBounds(q, b.Min(), b.Max())
    ensures InBounds(q, a.Min(), a.Max())
  {
    assert At(a.Min(), 0) <= At(b.Min(), 0) && At(b.Max(), 0) <= At(a.Max(), 0);
    assert At(a.Min(), 1) <= At(b.Min(), 1) && At(b.Max(), 1) <= At(a.Max(), 1);
    assert At(a.Min(), 2) <= At(b.Min(), 2) && At(b.Max(), 2) <= At(a.Max(), 2);
  }

  /** x^2 <= r^2 with r >= 0 puts x within [-r, r]. */
  lemma SquareBound(x: real, r: real)
    requires r >= 0.0 && Square(x) <= Square(r)
    ensures -r <= x <= r
  {
    if x > r {
      SquareStrictMonotone(r, x);
    } else if x < -r {
      SquareStrictMonotone(r, -x);
    }
  }

  /** A coordinate gap is at most the distance: (q_i - c_i)^2 <= |q - c|^2 on each axis. */
  lemma GapsBelowDistance(c: Vec3, q: Vec3)
    ensures Square(q.x - c.x) <= DistSq(c, q) && Square(q.y - c.y) <= DistSq(c, q) && Square(q.z - c.z) <= DistSq(c, q)
  {
    SquareNonNegative(q.x - c.x);
    SquareNonNegative(q.y - c.y);
    SquareNonNegative(q.z - c.z);
  }

  /** Every point within the radius of the sphere's center lies in a box that encloses the sphere. */
  lemma EnclosesSphereHoldsBall(b: AabbGeom, s: SphereGeom, q: Vec3)
    requires EnclosesSphere(b, s) && s.radius >= 0.0
    requires DistSq(s.center, q) <= s.radius * s.radius
    ensures InBounds(q, b.Min(), b.Max())
  {
    GapsBelowDistance(s.center, q);
    SquareBound(q.x - s.center.x, s.radius);
    SquareBound(q.y - s.center.y, s.radius);
    SquareBound(q.z - s.center.z, s.radius);
    assert At(b.Min(), 0) <= At(Sub(s.center, Splat(s.radius)), 0) && At(Add(s.center, Splat(s.radius)), 0) <= At(b.Max(), 0);
    assert At(b.Min(), 1) <= At(Sub(s.center, Splat(s.radius)), 1) && At(Add(s.center, Splat(s.radius)), 1) <= At(b.Max(), 1);
    assert At(b.Min(), 2) <= At(Sub(s.center, Splat(s.radius)), 2) && At(Add(s.center, Splat(s.radius)), 2) <= At(b.Max(), 2);
  }

  /** Corners 0 and 4 of a box are its min and max. */
  lemma MinMaxAreCorners(b: AabbGeom)
    ensures b.Corners()[0] == b.Min() && b.Corners()[4] == b.Max()
  {
  }

  /**
   * The corrected sphere test is stricter than the one as written: a box
   * whose corners are all within the sphere lies within the cube around
   * it.
   */
  lemma IsEnclosedBySphereCorrectedStricter(b: AabbGeom, s: SphereGeom)
    requires s.radius >= 0.0 && IsEnclosedBySphereCorrected(b, s)
    ensures IsEnclosedBySphere(b, s)
  {
    MinMaxAreCorners(b);
    var lo, hi := b.Corners()[0], b.Corners()[4];
    assert DistSq(s.center, lo) <= s.radius * s.radius;
    assert DistSq(s.center, hi) <= s.radius * s.radius;
    CubeHoldsPoint(s, lo);
    CubeHoldsPoint(s, hi);
  }

  /** A point within the radius of the center lies in the cube center +/- r. */
  lemma CubeHoldsPoint(s: SphereGeom, q: Vec3)
    requires s.radius >= 0.0 && DistSq(s.center, q) <= s.radius * s.radius
    ensures InBounds(q, Sub(s.center, Splat(s.radius)), Add(s.center, Splat(s.radius)))
  {
    GapsBelowDistance(s.center, q);
    SquareBound(q.x - s.center.x, s.radius);
    SquareBound(q.y - s.center.y, s.radius);
    SquareBound(q.z - s.center.z, s.radius);
  }

  /**
   * The unit-radius sphere at the origin and the box of half extents
   * (1, 1, 1) at the origin: the box lies within the cube around the
   * sphere, so the test as written reports it enclosed.
   */
  lemma IsEnclosedBySphereAcceptsCube(b: AabbGeom, s: SphereGeom)
    requires b.center.x == 0.0 && b.center.y == 0.0 && b.center.z == 0.0
    requires b.halfExtents.x == 1.0 && b.halfExtents.y == 1.0 && b.halfExtents.z == 1.0
    requires s.center.x == 0.0 && s.center.y == 0.0 && s.center.z == 0.0 && s.radius == 1.0
    ensures IsEnclosedBySphere(b, s)
  {
    assert b.Min() == Sub(s.center, Splat(s.radius)) && b.Max() == Add(s.center, Splat(s.radius));
  }

  /**
   * Yet the corner (1, 1, 1) of that box is at squared distance 3 from
   * the sphere's center, outside the sphere, and the corrected test
   * refuses the box.
   */
  lemma IsEnclosedBySphereCorrectedRefusesCube(b: AabbGeom, s: SphereGeom)
    requires b.center.x == 0.0 && b.center.y == 0.0 && b.center.z == 0.0
    requires b.halfExtents.x == 1.0 && b.halfExtents.y == 1.0 && b.halfExtents.z == 1.0
    requires s.center.x == 0.0 && s.center.y == 0.0 && s.center.z == 0.0 && s.radius == 1.0
    ensures DistSq(s.center, b.Max()) == 3.0
    ensures !IsEnclosedBySphereCorrected(b, s)
  {
    CubeCornerFar(b, s);
    MinMaxAreCorners(b);
    assert Dot(Sub(b.Corners()[4], s.center), Sub(b.Corners()[4], s.center)) > s.radius * s.radius;
  }

  /** The corner max of that box is at squared distance 3 from the origin. */
  lemma CubeCornerFar(b: AabbGeom, s: SphereGeom)
    requires b.center.x == 0.0 && b.center.y == 0.0 && b.center.z == 0.0
    requires b.halfExtents.x == 1.0 && b.halfExtents.y == 1.0 && b.halfExtents.z == 1.0
    requires s.center.x == 0.0 && s.center.y == 0.0 && s.center.z == 0.0
    ensures DistSq(s.center, b.Max()) == 3.0
    ensures Dot(Sub(b.Max(), s.center), Sub(b.Max(), s.center)) == 3.0
  {
    var m := b.Max();
    assert m.x == 1.0 && m.y == 1.0 && m.z == 1.0;
  }

  /** The sign of the end of [lo, hi] farther from c: +1 for hi, -1 for lo. */
  function FarSign(lo: real, hi: real, c: real): real {
    if Square(hi - c) >= Square(lo - c) then 1.0 else -1.0
  }

  /** A coordinate in [lo, hi] is no farther from c than the farther end. */
  lemma FartherEnd(v: real, lo: real, hi: real, c: real)
    requires lo <= v <= hi
    ensures Square(v - c) <= Square(Pick(lo, hi, FarSign(lo, hi, c)) - c)
  {
    var far := Pick(lo, hi, FarSign(lo, hi, c));
    assert Square(hi - c) <= Square(far - c) && Square(lo - c) <= Square(far - c);
    if v >= c {
      DiffOfSquares(hi - c, v - c);
      NonNegProduct(hi - v, (hi - c) + (v - c));
      assert Square(v - c) <= Square(hi - c);
    } else {
      DiffOfSquares(c - lo, c - v);
      NonNegProduct(v - lo, (c - lo) + (c - v));
      assert Square(c - v) <= Square(c - lo);
      NegSquare(v - c);
      NegSquare(lo - c);
    }
  }

  lemma DiffOfSquares(x: real, y: real)
    ensures Square(x) - Square(y) == (x - y) * (x + y)
  {
  }

  lemma NegSquare(x: real)
    ensures Square(-x) == Square(x)
  {
  }

  lemma NonNegProduct(x: real, y: real)
    requires x >= 0.0 && y >= 0.0
    ensures x * y >= 0.0
  {
  }

  /** The position of a sign vector in the engine's corner order. */
  function CornerIndex(sg: Vec3): (k: nat)
    requires IsSigns(sg)
    ensures k < 8 && CornerSigns()[k] == sg
  {
    if sg.x < 0.0 then
      if sg.y < 0.0 then (if sg.z < 0.0 then 0 else 1) else (if sg.z < 0.0 then 7 else 6)
    else
      if sg.y < 0.0 then (if sg.z < 0.0 then 2 else 3) else (if sg.z < 0.0 then 5 else 4)
  }

  /** The corner with sign vector sg takes lo or hi on each axis as the sign says. */
  lemma PickedCorner(b: AabbGeom, sg: Vec3, k: nat)
    requires IsSigns(sg) && k < 8 && CornerSigns()[k] == sg
    ensures b.Corners()[k] == Vec3(Pick(b.Min().x, b.Max().x, sg.x), Pick(b.Min().y, b.Max().y, sg.y), Pick(b.Min().z, b.Max().z, sg.z))
  {
    AabbVertex(b, sg);
  }

  /**
   * The corrected sphere test keeps the promise of isEnclosedByVolume:
   * when every corner is within the radius, so is every point of the box.
   */
  lemma IsEnclosedBySphereCorrectedHoldsBox(b: AabbGeom, s: SphereGeom, q: Vec3)
    requires IsEnclosedBySphereCorrected(b, s) && InBounds(q, b.Min(), b.Max())
    ensures DistSq(s.center, q) <= s.radius * s.radius
  {
    var c, lo, hi := s.center, b.Min(), b.Max();
    var sg := Vec3(FarSign(lo.x, hi.x, c.x), FarSign(lo.y, hi.y, c.y), FarSign(lo.z, hi.z, c.z));
    var k := CornerIndex(sg);
    var f := b.Corners()[k];
    assert Dot(Sub(f, c), Sub(f, c)) <= s.radius * s.radius;
    PickedCorner(b, sg, k);
    FartherEnd(q.x, lo.x, hi.x, c.x);
    FartherEnd(q.y, lo.y, hi.y, c.y);
    FartherEnd(q.z, lo.z, hi.z, c.z);
    AxisBoundsSum(c, q, f);
  }

  /** Per-axis bounds on the squared gaps add up to a bound on the squared distance. */
  lemma AxisBoundsSum(c: Vec3, q: Vec3, f: Vec3)
    requires Square(q.x - c.x) <= Square(f.x - c.x)
    requires Square(q.y - c.y) <= Square(f.y - c.y)
    requires Square(q.z - c.z) <= Square(f.z - c.z)
    ensures DistSq(c, q) <= Dot(Sub(f, c), Sub(f, c))
  {
    DistSqExpanded(c, q);
  }


  // ---------------------------------------------------------------------
  // Triangles
  // ---------------------------------------------------------------------

  /** The vertex of signs s of the box is center + (s.x h.x, s.y h.y, s.z h.z). */
  lemma AabbVertex(b: AabbGeom, s: Vec3)
    ensures Vertex(b.center, b.EdgeX(), b.EdgeY(), b.EdgeZ(), s) == Add(b.center, Mul(s, b.halfExtents))
  {
  }

  /**
   * getTriangles: triangle k is built from the vertices center + s h for
   * the signs of FaceSigns()[k], each on face k / 4, and its third vertex
   * repeats its second.
   */
  lemma AabbTriangles(b: AabbGeom, k: nat)
    requires k < 12
    ensures var t, s := b.Triangles()[k], FaceSigns()[k];
            t.v1 == Add(b.center, Mul(s.a, b.halfExtents)) && t.v2 == Add(b.center, Mul(s.b, b.halfExtents)) &&
            t.v3 == t.v2 && OnFace(s, k / 4, if k % 4 < 2 then 1.0 else -1.0)
  {
    BoxTrianglesOnFaces(b.center, b.EdgeX(), b.EdgeY(), b.EdgeZ(), k);
    AabbVertex(b, FaceSigns()[k].a);
    AabbVertex(b, FaceSigns()[k].b);
  }

  // ---------------------------------------------------------------------
  // The box's reply
  // ---------------------------------------------------------------------

  /** The axis-aligned box answers for spheres and axis-aligned boxes and hands the rest over. */
  function AabbReply(q: Query, b: AabbGeom, other: Volume): (r: Reply)
    ensures r == Delegate <==> other.CapsuleVolume? || other.ObbVolume?
  {
    match other
    case SphereVolume(s) =>
      Answer(match q
             case Intersects => IntersectsSphere(b, s)
             case Encloses => EnclosesSphere(b, s)
             case IsEnclosedBy => IsEnclosedBySphere(b, s))
    case AabbVolume(o) =>
      Answer(match q
             case Intersects => IntersectsAabb(b, o)
             case Encloses => EnclosesAabb(b, o)
             case IsEnclosedBy => IsEnclosedByAabb(b, o))
    case _ => Delegate
  }
}
