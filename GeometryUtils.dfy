// The free functions of GeometryUtils: point/segment, segment/segment,
// triangle, segment/triangle, plane and point/oriented-box queries, after
// Ericson's Real-Time Collision Detection. Values that the engine would
// compute as NaN or infinity (a division by zero) are `None` here.
module GeometryUtils {
  import opened Vectors

  // ---------------------------------------------------------------------
  // Point and segment
  // ---------------------------------------------------------------------

  /**
   * getClosestPointToTestPointAndSegment: project p onto the segment,
   * deferring the division by |end - start|^2, and clamp to the ends.
   */
  function ClosestPtPointSegment(p: Vec3, start: Vec3, end: Vec3): Vec3 {
    var ab := Sub(end, start);
    var t := Dot(Sub(p, start), ab);
    if t <= 0.0 then start
    else
      var denom := Dot(ab, ab);
      if t >= denom then end
      else Add(start, Div(Scale(t, ab), denom))
  }

  /** The parameter in [0, 1] of the point of the segment closest to p. */
  function SegmentParam(p: Vec3, start: Vec3, end: Vec3): (u: real)
    ensures 0.0 <= u <= 1.0
  {
    var ab := Sub(end, start);
    var t := Dot(Sub(p, start), ab);
    var denom := Dot(ab, ab);
    if t <= 0.0 then 0.0 else if t >= denom then 1.0 else t / denom
  }

  lemma PointAtZero(a: Vec3, b: Vec3)
    ensures PointAt(a, b, 0.0) == a
  {
  }

  lemma PointAtOne(a: Vec3, b: Vec3)
    ensures PointAt(a, b, 1.0) == b
  {
  }

  /** The closest point is the point of the segment at SegmentParam. */
  lemma ClosestPtPointSegmentOnSegment(p: Vec3, start: Vec3, end: Vec3)
    ensures ClosestPtPointSegment(p, start, end) == PointAt(start, end, SegmentParam(p, start, end))
  {
    var ab := Sub(end, start);
    var t := Dot(Sub(p, start), ab);
    var denom := Dot(ab, ab);
    if t <= 0.0 {
      PointAtZero(start, end);
    } else if t >= denom {
      PointAtOne(start, end);
    } else {
      DivOfScale(t, ab, denom);
    }
  }

  /** (t v) / k == (t / k) v. */
  lemma DivOfScale(t: real, v: Vec3, k: real)
    requires k != 0.0
    ensures Div(Scale(t, v), k) == Scale(t / k, v)
  {
    DivOfProduct(t, v.x, k);
    DivOfProduct(t, v.y, k);
    DivOfProduct(t, v.z, k);
  }

  lemma DivOfProduct(t: real, x: real, k: real)
    requires k != 0.0
    ensures (t * x) / k == (t / k) * x
  {
  }

  /**
   * |q(u) - p|^2 for the point q(u) = start + u * (end - start) is the
   * quadratic u^2 |ab|^2 - 2 u (ap . ab) + |ap|^2.
   */
  lemma DistSqAlongSegment(p: Vec3, start: Vec3, end: Vec3, u: real)
    ensures DistSq(p, PointAt(start, end, u)) ==
            Quadratic(Dot(Sub(end, start), Sub(end, start)), Dot(Sub(p, start), Sub(end, start)),
                      Dot(Sub(p, start), Sub(p, start)), u)
  {
    var ab, ap := Sub(end, start), Sub(p, start);
    assert Sub(PointAt(start, end, u), p) == Sub(Scale(u, ab), ap);
    SquareOfDifference(u, ab.x, ap.x);
    SquareOfDifference(u, ab.y, ap.y);
    SquareOfDifference(u, ab.z, ap.z);
  }

  /** u^2 a - 2 u e + k. */
  function Quadratic(a: real, e: real, k: real, u: real): real {
    u * u * a - 2.0 * u * e + k
  }

  lemma SquareOfDifference(u: real, a: real, b: real)
    ensures (u * a - b) * (u * a - b) == u * u * (a * a) - 2.0 * u * (b * a) + b * b
  {
  }

  /** Only the zero vector has squared length 0. */
  lemma ZeroLengthIsZero(v: Vec3)
    requires Dot(v, v) == 0.0
    ensures v == Zero
  {
    if v != Zero {
      LengthSqPositive(v);
    }
  }

  lemma DotWithZeroLength(v: Vec3, w: Vec3)
    requires Dot(w, w) == 0.0
    ensures Dot(v, w) == 0.0
  {
    ZeroLengthIsZero(w);
  }

  /**
   * No point of the segment is closer to p than ClosestPtPointSegment:
   * the routine really returns the closest point.
   */
  lemma ClosestPtPointSegmentIsClosest(p: Vec3, start: Vec3, end: Vec3, u: real)
    requires 0.0 <= u <= 1.0
    ensures DistSq(p, ClosestPtPointSegment(p, start, end)) <= DistSq(p, PointAt(start, end, u))
  {
    ClosestPtPointSegmentOnSegment(p, start, end);
    SegmentParamSolves(p, start, end);
    MinimumAlongSegment(p, start, end, SegmentParam(p, start, end), u);
  }

  /** SegmentParam, stated without division. */
  lemma SegmentParamSolves(p: Vec3, start: Vec3, end: Vec3)
    ensures ClampedRatio(Dot(Sub(p, start), Sub(end, start)), Dot(Sub(end, start), Sub(end, start)),
                         SegmentParam(p, start, end))
  {
  }

  /** m is e / a clamped to [0, 1], written without a division. */
  predicate ClampedRatio(e: real, a: real, m: real) {
    (e <= 0.0 && m == 0.0) || (e >= a && e > 0.0 && m == 1.0) || (0.0 < e < a && a * m == e)
  }

  lemma MinimumAlongSegment(p: Vec3, start: Vec3, end: Vec3, m: real, u: real)
    requires ClampedRatio(Dot(Sub(p, start), Sub(end, start)), Dot(Sub(end, start), Sub(end, start)), m)
    requires 0.0 <= u <= 1.0
    ensures DistSq(p, PointAt(start, end, m)) <= DistSq(p, PointAt(start, end, u))
  {
    var ab, ap := Sub(end, start), Sub(p, start);
    var a, e := Dot(ab, ab), Dot(ap, ab);
    assert a >= 0.0 by { LengthSqNonNegative(ab); }
    if a == 0.0 {
      DotWithZeroLength(ap, ab);
    }
    ClampedQuadraticMinimum(a, e, Dot(ap, ap), u, m);
    DistSqAlongSegment(p, start, end, u);
    DistSqAlongSegment(p, start, end, m);
  }

  /**
   * On [0, 1] the quadratic u^2 a - 2 u e (a >= 0) is smallest at e / a
   * clamped to [0, 1].
   */
  lemma ClampedQuadraticMinimum(a: real, e: real, k: real, u: real, m: real)
    requires a >= 0.0 && (a == 0.0 ==> e == 0.0) && 0.0 <= u <= 1.0
    requires ClampedRatio(e, a, m)
    ensures Quadratic(a, e, k, m) <= Quadratic(a, e, k, u)
  {
    var fu := u * u * a - 2.0 * u * e;
    var fm := m * m * a - 2.0 * m * e;
    assert fu - fm == (u - m) * (a * (u + m) - 2.0 * e);
    if e <= 0.0 {
      MulNonNegative(u, a * u - 2.0 * e);
    } else if e >= a {
      assert a * (u + m) - 2.0 * e <= a * (u - 1.0);
      MulNonPositive(u - 1.0, a * (u + m) - 2.0 * e);
    } else {
      assert a * (u + m) - 2.0 * e == a * (u - m);
      SquareTimesNonNegative(u - m, a);
      assert (u - m) * (a * (u - m)) == a * ((u - m) * (u - m));
    }
  }

  lemma SquareTimesNonNegative(x: real, k: real)
    requires k >= 0.0
    ensures k * (x * x) >= 0.0
  {
    assert x * x >= 0.0;
    MulNonNegative(k, x * x);
  }

  /**
   * getSquaredDistToTestPointAndSegment: |ap|^2 before the segment,
   * |bp|^2 past it, and |ap|^2 - (ap . ab)^2 / |ab|^2 in between.
   */
  function SqDistPointSegment(p: Vec3, start: Vec3, end: Vec3): real {
    var ab, ap, bp := Sub(end, start), Sub(p, start), Sub(p, end);
    var e := Dot(ap, ab);
    if e <= 0.0 then Dot(ap, ap)
    else
      var f := Dot(ab, ab);
      if e >= f then Dot(bp, bp)
      else Dot(ap, ap) - e * e / f
  }

  /**
   * The closed-form squared distance is the squared distance from p to
   * the closest point of the segment, hence non-negative.
   */
  lemma SqDistPointSegmentIsDistToClosest(p: Vec3, start: Vec3, end: Vec3)
    ensures SqDistPointSegment(p, start, end) == DistSq(p, ClosestPtPointSegment(p, start, end))
    ensures SqDistPointSegment(p, start, end) >= 0.0
  {
    ClosestPtPointSegmentOnSegment(p, start, end);
    SegmentParamSolves(p, start, end);
    SqDistAtParam(p, start, end, SegmentParam(p, start, end));
    LengthSqNonNegative(Sub(ClosestPtPointSegment(p, start, end), p));
  }

  lemma SqDistAtParam(p: Vec3, start: Vec3, end: Vec3, m: real)
    requires ClampedRatio(Dot(Sub(p, start), Sub(end, start)), Dot(Sub(end, start), Sub(end, start)), m)
    ensures SqDistPointSegment(p, start, end) == DistSq(p, PointAt(start, end, m))
  {
    var ab, ap := Sub(end, start), Sub(p, start);
    var a, e := Dot(ab, ab), Dot(ap, ab);
    if e <= 0.0 {
      PointAtZero(start, end);
    } else if e >= a {
      PointAtOne(start, end);
    } else {
      SqDistInterior(p, start, end, m);
    }
  }

  lemma SqDistInterior(p: Vec3, start: Vec3, end: Vec3, m: real)
    requires var e, a := Dot(Sub(p, start), Sub(end, start)), Dot(Sub(end, start), Sub(end, start));
             0.0 < e < a && ClampedRatio(e, a, m)
    ensures SqDistPointSegment(p, start, end) == DistSq(p, PointAt(start, end, m))
  {
    DistSqAlongSegment(p, start, end, m);
    InteriorQuadratic(Dot(Sub(end, start), Sub(end, start)), Dot(Sub(p, start), Sub(end, start)),
                      Dot(Sub(p, start), Sub(p, start)), m);
  }

  /** With a m = e the quadratic at m is k - e^2 / a. */
  lemma InteriorQuadratic(a: real, e: real, k: real, m: real)
    requires 0.0 < e < a && ClampedRatio(e, a, m)
    ensures k - e * e / a == Quadratic(a, e, k, m)
  {
    assert e * e == (m * e) * a;
  }

  // ---------------------------------------------------------------------
  // Segment and segment
  // ---------------------------------------------------------------------

  /** The parameters s (on segment 1) and t (on segment 2) of a closest pair. */
  datatype Params = Params(s: real, t: real)

  /** The two closest points and their squared distance. */
  datatype ClosestPair = ClosestPair(c1: Vec3, c2: Vec3, dist2: real)

  /** The engine's `clamp(x / b, 0.f, 1.f)`. */
  function ClampedRatioOf(x: real, b: real): (r: real)
    requires b != 0.0
    ensures 0.0 <= r <= 1.0
  {
    Clamp(x / b, 0.0, 1.0)
  }

  /**
   * The parameters getClosestPointsBetweenSegments settles on, from
   * b = |d1|^2, e = |d2|^2, c = d1 . r, d = d1 . d2 and f = d2 . r with
   * d1, d2 the segment directions and r = start1 - start2: both segments
   * shorter than epsilon give (0, 0); a short first segment projects start1
   * onto the second; a short second segment projects start2 onto the
   * first; otherwise s solves the 2x2 system (0 when the segments are
   * parallel), t follows from s, and s is recomputed when t had to be
   * clamped.
   */
  function ParamsOf(b: real, e: real, c: real, d: real, f: real): (p: Params)
    ensures 0.0 <= p.s <= 1.0 && 0.0 <= p.t <= 1.0
  {
    if b <= Epsilon && e <= Epsilon then Params(0.0, 0.0)
    else if b <= Epsilon then Params(0.0, ClampedRatioOf(f, e))
    else if e <= Epsilon then Params(ClampedRatioOf(-c, b), 0.0)
    else
      var t := UnclampedT(b, e, c, d, f);
      if t < 0.0 then Params(ClampedRatioOf(-c, b), 0.0)
      else if t > 1.0 then Params(ClampedRatioOf(d - c, b), 1.0)
      else Params(FirstS(b, e, c, d, f), t)
  }

  /** s before t is examined, from denom = b e - d^2. */
  function FirstS(b: real, e: real, c: real, d: real, f: real): (s: real)
    ensures 0.0 <= s <= 1.0
  {
    SolvedS(c, e, d, f, b * e - d * d)
  }

  /** The clamped solution of the 2x2 system, or 0 for parallel segments (denom = 0). */
  function SolvedS(c: real, e: real, d: real, f: real, denom: real): (s: real)
    ensures 0.0 <= s <= 1.0
  {
    if denom != 0.0 then ClampedRatioOf(d * f - c * e, denom) else 0.0
  }

  lemma UnclampedTSolves(b: real, e: real, c: real, d: real, f: real)
    requires e > Epsilon
    ensures Solves(e, UnclampedT(b, e, c, d, f), d, FirstS(b, e, c, d, f), f)
  {
  }

  /** e t = d s + f: t is where s leads on the second segment. */
  predicate Solves(e: real, t: real, d: real, s: real, f: real) {
    e * t == Affine(d, s, f)
  }

  /** d s + f. */
  function Affine(d: real, s: real, f: real): real {
    d * s + f
  }

  /** t = (d s + f) / e for the first s. */
  function UnclampedT(b: real, e: real, c: real, d: real, f: real): real
    requires e > Epsilon
  {
    FollowT(d, FirstS(b, e, c, d, f), f, e)
  }

  /** The parameter on the second segment that s leads to, (d s + f) / e. */
  function FollowT(d: real, s: real, f: real, e: real): real
    requires e != 0.0
  {
    (d * s + f) / e
  }

  function SegmentsParams(start1: Vec3, end1: Vec3, start2: Vec3, end2: Vec3): Params {
    var d1, d2, r := Sub(end1, start1), Sub(end2, start2), Sub(start1, start2);
    ParamsOf(Dot(d1, d1), Dot(d2, d2), Dot(d1, r), Dot(d1, d2), Dot(d2, r))
  }

  /** c1 = start1 + s d1, c2 = start2 + t d2 and dist2 = |c2 - c1|^2. */
  function SegmentsClosest(start1: Vec3, end1: Vec3, start2: Vec3, end2: Vec3): (r: ClosestPair)
    ensures r.dist2 >= 0.0
  {
    var p := SegmentsParams(start1, end1, start2, end2);
    var c1, c2 := PointAt(start1, end1, p.s), PointAt(start2, end2, p.t);
    LengthSqNonNegative(Sub(c2, c1));
    ClosestPair(c1, c2, DistSq(c1, c2))
  }

  /**
   * getClosestPointsBetweenSegments: the degenerate case of two points,
   * then s and t from the scalar products, and the closest points c1 and
   * c2 written back with their squared distance.
   */
  method ClosestPtSegmentSegment(start1: Vec3, end1: Vec3, start2: Vec3, end2: Vec3)
    returns (c1: Vec3, c2: Vec3, dist2: real)
    ensures ClosestPair(c1, c2, dist2) == SegmentsClosest(start1, end1, start2, end2)
  {
    var d1 := Sub(end1, start1);
    var d2 := Sub(end2, start2);
    var r := Sub(start1, start2);
    var b := Dot(d1, d1);
    var e := Dot(d2, d2);
    var f := Dot(d2, r);

    if b <= Epsilon && e <= Epsilon {
      c1 := start1;
      c2 := start2;
      SegmentsClosestAt(start1, end1, start2, end2, Params(0.0, 0.0));
      PointAtZero(start1, end1);
      PointAtZero(start2, end2);
      return c1, c2, Dot(Sub(c2, c1), Sub(c2, c1));
    }

    var s, t := SegmentParamsStep(b, e, Dot(d1, r), Dot(d1, d2), f);
    c1 := Add(start1, Scale(s, d1));
    c2 := Add(start2, Scale(t, d2));
    dist2 := Dot(Sub(c2, c1), Sub(c2, c1));
    SegmentsClosestAt(start1, end1, start2, end2, Params(s, t));
  }

  /**
   * The reassignments of s and t in getClosestPointsBetweenSegments once
   * at least one segment is longer than epsilon. The engine computes
   * c = d1 . r and d = d1 . d2 only on the paths that read them; they are
   * pure, so the model takes them as inputs.
   */
  method SegmentParamsStep(b: real, e: real, c: real, d: real, f: real) returns (s: real, t: real)
    requires !(b <= Epsilon && e <= Epsilon)
    ensures Params(s, t) == ParamsOf(b, e, c, d, f)
  {
    s, t := 0.0, 0.0;
    if b <= Epsilon {
      t := ClampedRatioOf(f, e);
    } else if e <= Epsilon {
      s := ClampedRatioOf(-c, b);
    } else {
      var denom := b * e - d * d;
      if denom != 0.0 {
        s := ClampedRatioOf(d * f - c * e, denom);
      } else {
        s := 0.0;
      }
      assert s == FirstS(b, e, c, d, f);
      t := (d * s + f) / e;
      assert t == UnclampedT(b, e, c, d, f);
      if t < 0.0 {
        t := 0.0;
        s := ClampedRatioOf(-c, b);
      } else if t > 1.0 {
        t := 1.0;
        s := ClampedRatioOf(d - c, b);
      }
    }
  }

  /** An unfolding step: SegmentsClosest written out at the parameters it settles on. */
  lemma SegmentsClosestAt(start1: Vec3, end1: Vec3, start2: Vec3, end2: Vec3, p: Params)
    requires p == SegmentsParams(start1, end1, start2, end2)
    ensures SegmentsClosest(start1, end1, start2, end2)
            == ClosestPair(PointAt(start1, end1, p.s), PointAt(start2, end2, p.t),
                           DistSq(PointAt(start1, end1, p.s), PointAt(start2, end2, p.t)))
  {
  }

  /**
   * The pair getClosestPointsBetweenSegments writes back lies on the two
   * segments, at parameters in [0, 1], and the value is its squared distance.
   */
  lemma SegmentsClosestOnSegments(start1: Vec3, end1: Vec3, start2: Vec3, end2: Vec3)
    ensures var r := SegmentsClosest(start1, end1, start2, end2);
            exists s: real, t: real :: 0.0 <= s <= 1.0 && 0.0 <= t <= 1.0 &&
              r.c1 == PointAt(start1, end1, s) && r.c2 == PointAt(start2, end2, t) &&
              r.dist2 == DistSq(r.c1, r.c2)
  {
    hide *;
    var p := SegmentsParams(start1, end1, start2, end2);
    SegmentsClosestAt(start1, end1, start2, end2, p);
    ParamsInUnit(start1, end1, start2, end2);
  }

  lemma ParamsInUnit(start1: Vec3, end1: Vec3, start2: Vec3, end2: Vec3)
    ensures var p := SegmentsParams(start1, end1, start2, end2);
            0.0 <= p.s <= 1.0 && 0.0 <= p.t <= 1.0
  {
  }

  /** For a segment of positive length SegmentParam is the clamped ratio. */
  lemma SegmentParamIsClamped(q: Vec3, start: Vec3, end: Vec3)
    requires Dot(Sub(end, start), Sub(end, start)) > 0.0
    ensures SegmentParam(q, start, end) ==
            ClampedRatioOf(Dot(Sub(q, start), Sub(end, start)), Dot(Sub(end, start), Sub(end, start)))
  {
    ClampOfRatio(Dot(Sub(q, start), Sub(end, start)), Dot(Sub(end, start), Sub(end, start)));
  }

  lemma ClampOfRatio(x: real, a: real)
    requires a > 0.0
    ensures (if x <= 0.0 then 0.0 else if x >= a then 1.0 else x / a) == Clamp(x / a, 0.0, 1.0)
  {
    RatioBounds(x, a, x / a);
  }

  /** q = x / a with a > 0 lies on the same side of 0 and of 1 as x does of 0 and of a. */
  lemma RatioBounds(x: real, a: real, q: real)
    requires a > 0.0 && q * a == x
    ensures (x <= 0.0 ==> q <= 0.0) && (x > 0.0 ==> q > 0.0)
    ensures (x >= a ==> q >= 1.0) && (x < a ==> q < 1.0)
  {
    RatioSign(x, a, q);
    RatioSign(x - a, a, q - 1.0);
  }

  lemma RatioSign(x: real, a: real, q: real)
    requires a > 0.0 && q * a == x
    ensures (x <= 0.0 ==> q <= 0.0) && (x > 0.0 ==> q > 0.0)
  {
    if q > 0.0 {
      MulPositive(q, a);
    } else {
      MulNonPositive(q, -a);
    }
  }

  /**
   * Each point of the pair is where the other point projects onto its own
   * segment: c2 is the closest point of segment 2 to c1, or c1 the closest
   * point of segment 1 to c2 (unless both segments are shorter than
   * epsilon, when the pair is (start1, start2)).
   */
  lemma SegmentsClosestMutual(start1: Vec3, end1: Vec3, start2: Vec3, end2: Vec3)
    ensures var r := SegmentsClosest(start1, end1, start2, end2);
            var b, e := LengthSq(Sub(end1, start1)), LengthSq(Sub(end2, start2));
            if b <= Epsilon && e <= Epsilon then r.c1 == start1 && r.c2 == start2
            else r.c2 == ClosestPtPointSegment(r.c1, start2, end2) ||
                 r.c1 == ClosestPtPointSegment(r.c2, start1, end1)
  {
    var d1, d2, r := Sub(end1, start1), Sub(end2, start2), Sub(start1, start2);
    var b, e, c, d, f := Dot(d1, d1), Dot(d2, d2), Dot(d1, r), Dot(d1, d2), Dot(d2, r);
    if b <= Epsilon && e <= Epsilon {
      MutualBothShort(start1, end1, start2, end2);
    } else if b <= Epsilon {
      MutualFirstShort(start1, end1, start2, end2);
    } else if e <= Epsilon {
      MutualSecondShort(start1, end1, start2, end2);
    } else if UnclampedT(b, e, c, d, f) < 0.0 {
      MutualBelow(start1, end1, start2, end2);
    } else if UnclampedT(b, e, c, d, f) > 1.0 {
      MutualAbove(start1, end1, start2, end2);
    } else {
      MutualInterior(start1, end1, start2, end2);
    }
  }

  lemma MutualBothShort(start1: Vec3, end1: Vec3, start2: Vec3, end2: Vec3)
    requires Dot(Sub(end1, start1), Sub(end1, start1)) <= Epsilon
    requires Dot(Sub(end2, start2), Sub(end2, start2)) <= Epsilon
    ensures SegmentsClosest(start1, end1, start2, end2).c1 == start1
    ensures SegmentsClosest(start1, end1, start2, end2).c2 == start2
  {
    assert SegmentsParams(start1, end1, start2, end2) == Params(0.0, 0.0);
    PointAtZero(start1, end1);
    PointAtZero(start2, end2);
  }

  lemma MutualFirstShort(start1: Vec3, end1: Vec3, start2: Vec3, end2: Vec3)
    requires Dot(Sub(end1, start1), Sub(end1, start1)) <= Epsilon
    requires Dot(Sub(end2, start2), Sub(end2, start2)) > Epsilon
    ensures var r := SegmentsClosest(start1, end1, start2, end2);
            r.c2 == ClosestPtPointSegment(r.c1, start2, end2)
  {
    var d2, r := Sub(end2, start2), Sub(start1, start2);
    assert SegmentsParams(start1, end1, start2, end2) == Params(0.0, ClampedRatioOf(Dot(d2, r), Dot(d2, d2)));
    PointAtZero(start1, end1);
    assert Dot(d2, r) == Dot(Sub(start1, start2), Sub(end2, start2));
    ProjectsOntoSecond(start1, start2, end2);
  }

  lemma MutualSecondShort(start1: Vec3, end1: Vec3, start2: Vec3, end2: Vec3)
    requires Dot(Sub(end1, start1), Sub(end1, start1)) > Epsilon
    requires Dot(Sub(end2, start2), Sub(end2, start2)) <= Epsilon
    ensures var r := SegmentsClosest(start1, end1, start2, end2);
            r.c1 == ClosestPtPointSegment(r.c2, start1, end1)
  {
    var d1, r := Sub(end1, start1), Sub(start1, start2);
    assert SegmentsParams(start1, end1, start2, end2) == Params(ClampedRatioOf(-Dot(d1, r), Dot(d1, d1)), 0.0);
    PointAtZero(start2, end2);
    StartOffsets(start1, end1, start2, end2);
    ProjectsOntoFirst(start2, start1, end1, start2, end2, -Dot(d1, r));
  }

  lemma MutualBelow(start1: Vec3, end1: Vec3, start2: Vec3, end2: Vec3)
    requires var d1, d2, r := Sub(end1, start1), Sub(end2, start2), Sub(start1, start2);
             Dot(d1, d1) > Epsilon && Dot(d2, d2) > Epsilon &&
             UnclampedT(Dot(d1, d1), Dot(d2, d2), Dot(d1, r), Dot(d1, d2), Dot(d2, r)) < 0.0
    ensures var r := SegmentsClosest(start1, end1, start2, end2);
            r.c1 == ClosestPtPointSegment(r.c2, start1, end1)
  {
    var d1, r := Sub(end1, start1), Sub(start1, start2);
    assert SegmentsParams(start1, end1, start2, end2) == Params(ClampedRatioOf(-Dot(d1, r), Dot(d1, d1)), 0.0);
    PointAtZero(start2, end2);
    StartOffsets(start1, end1, start2, end2);
    ProjectsOntoFirst(start2, start1, end1, start2, end2, -Dot(d1, r));
  }

  lemma MutualAbove(start1: Vec3, end1: Vec3, start2: Vec3, end2: Vec3)
    requires var d1, d2, r := Sub(end1, start1), Sub(end2, start2), Sub(start1, start2);
             Dot(d1, d1) > Epsilon && Dot(d2, d2) > Epsilon &&
             UnclampedT(Dot(d1, d1), Dot(d2, d2), Dot(d1, r), Dot(d1, d2), Dot(d2, r)) > 1.0
    ensures var r := SegmentsClosest(start1, end1, start2, end2);
            r.c1 == ClosestPtPointSegment(r.c2, start1, end1)
  {
    var d1, d2, r := Sub(end1, start1), Sub(end2, start2), Sub(start1, start2);
    assert SegmentsParams(start1, end1, start2, end2)
        == Params(ClampedRatioOf(Dot(d1, d2) - Dot(d1, r), Dot(d1, d1)), 1.0);
    PointAtOne(start2, end2);
    StartOffsets(start1, end1, start2, end2);
    ProjectsOntoFirst(end2, start1, end1, start2, end2, Dot(d1, d2) - Dot(d1, r));
  }

  lemma MutualInterior(start1: Vec3, end1: Vec3, start2: Vec3, end2: Vec3)
    requires var d1, d2, r := Sub(end1, start1), Sub(end2, start2), Sub(start1, start2);
             Dot(d1, d1) > Epsilon && Dot(d2, d2) > Epsilon &&
             0.0 <= UnclampedT(Dot(d1, d1), Dot(d2, d2), Dot(d1, r), Dot(d1, d2), Dot(d2, r)) <= 1.0
    ensures var r := SegmentsClosest(start1, end1, start2, end2);
            r.c2 == ClosestPtPointSegment(r.c1, start2, end2)
  {
    var d1, d2, r := Sub(end1, start1), Sub(end2, start2), Sub(start1, start2);
    var b, e, c, d, f := Dot(d1, d1), Dot(d2, d2), Dot(d1, r), Dot(d1, d2), Dot(d2, r);
    assert SegmentsParams(start1, end1, start2, end2) == Params(FirstS(b, e, c, d, f), UnclampedT(b, e, c, d, f));
    FollowsOntoSecond(start1, end1, start2, end2);
  }

  /** The dot products of start2 - start1 and end2 - start1 with d1, from c and d. */
  lemma StartOffsets(start1: Vec3, end1: Vec3, start2: Vec3, end2: Vec3)
    ensures var d1, r := Sub(end1, start1), Sub(start1, start2);
            Dot(Sub(start2, start1), d1) == -Dot(d1, r) &&
            Dot(Sub(end2, start1), d1) == Dot(d1, Sub(end2, start2)) - Dot(d1, r)
  {
  }

  /** With |d2|^2 > epsilon, the projection of q onto segment 2. */
  lemma ProjectsOntoSecond(q: Vec3, start2: Vec3, end2: Vec3)
    requires LengthSq(Sub(end2, start2)) > Epsilon
    ensures PointAt(start2, end2, ClampedRatioOf(Dot(Sub(q, start2), Sub(end2, start2)), LengthSq(Sub(end2, start2))))
            == ClosestPtPointSegment(q, start2, end2)
  {
    ClosestPtPointSegmentOnSegment(q, start2, end2);
    SegmentParamIsClamped(q, start2, end2);
  }

  /** With |d1|^2 > epsilon, x = (q - start1) . d1 gives the projection of q onto segment 1. */
  lemma ProjectsOntoFirst(q: Vec3, start1: Vec3, end1: Vec3, start2: Vec3, end2: Vec3, x: real)
    requires LengthSq(Sub(end1, start1)) > Epsilon
    requires x == Dot(Sub(q, start1), Sub(end1, start1))
    ensures PointAt(start1, end1, ClampedRatioOf(x, LengthSq(Sub(end1, start1))))
            == ClosestPtPointSegment(q, start1, end1)
  {
    ClosestPtPointSegmentOnSegment(q, start1, end1);
    SegmentParamIsClamped(q, start1, end1);
  }

  /**
   * In the general case with t left unclamped, t is the projection
   * parameter of c1 = start1 + s d1 onto segment 2.
   */
  lemma FollowsOntoSecond(start1: Vec3, end1: Vec3, start2: Vec3, end2: Vec3)
    requires var d1, d2, r := Sub(end1, start1), Sub(end2, start2), Sub(start1, start2);
             Dot(d2, d2) > Epsilon &&
             0.0 <= UnclampedT(Dot(d1, d1), Dot(d2, d2), Dot(d1, r), Dot(d1, d2), Dot(d2, r)) <= 1.0
    ensures var d1, d2, r := Sub(end1, start1), Sub(end2, start2), Sub(start1, start2);
            var b, e, c, d, f := Dot(d1, d1), Dot(d2, d2), Dot(d1, r), Dot(d1, d2), Dot(d2, r);
            PointAt(start2, end2, UnclampedT(b, e, c, d, f))
            == ClosestPtPointSegment(PointAt(start1, end1, FirstS(b, e, c, d, f)), start2, end2)
  {
    UnclampedTSolvesAt(start1, end1, start2, end2);
    FollowRatio(start1, end1, start2, end2,
                FirstS(Dot(Sub(end1, start1), Sub(end1, start1)), Dot(Sub(end2, start2), Sub(end2, start2)),
                       Dot(Sub(end1, start1), Sub(start1, start2)), Dot(Sub(end1, start1), Sub(end2, start2)),
                       Dot(Sub(end2, start2), Sub(start1, start2))),
                UnclampedT(Dot(Sub(end1, start1), Sub(end1, start1)), Dot(Sub(end2, start2), Sub(end2, start2)),
                           Dot(Sub(end1, start1), Sub(start1, start2)), Dot(Sub(end1, start1), Sub(end2, start2)),
                           Dot(Sub(end2, start2), Sub(start1, start2))));
    ProjectsOntoSecond(PointAt(start1, end1,
                               FirstS(Dot(Sub(end1, start1), Sub(end1, start1)), Dot(Sub(end2, start2), Sub(end2, start2)),
                                      Dot(Sub(end1, start1), Sub(start1, start2)), Dot(Sub(end1, start1), Sub(end2, start2)),
                                      Dot(Sub(end2, start2), Sub(start1, start2)))),
                       start2, end2);
  }

  lemma UnclampedTSolvesAt(start1: Vec3, end1: Vec3, start2: Vec3, end2: Vec3)
    requires Dot(Sub(end2, start2), Sub(end2, start2)) > Epsilon
    ensures var d1, d2, r := Sub(end1, start1), Sub(end2, start2), Sub(start1, start2);
            var b, e, c, d, f := Dot(d1, d1), Dot(d2, d2), Dot(d1, r), Dot(d1, d2), Dot(d2, r);
            Solves(e, UnclampedT(b, e, c, d, f), d, FirstS(b, e, c, d, f), f)
  {
    var d1, d2, r := Sub(end1, start1), Sub(end2, start2), Sub(start1, start2);
    UnclampedTSolves(Dot(d1, d1), Dot(d2, d2), Dot(d1, r), Dot(d1, d2), Dot(d2, r));
  }

  lemma FollowRatio(start1: Vec3, end1: Vec3, start2: Vec3, end2: Vec3, s: real, t: real)
    requires LengthSq(Sub(end2, start2)) > Epsilon
    requires Solves(Dot(Sub(end2, start2), Sub(end2, start2)), t,
                    Dot(Sub(end1, start1), Sub(end2, start2)), s, Dot(Sub(end2, start2), Sub(start1, start2)))
    requires 0.0 <= t <= 1.0
    ensures ClampedRatioOf(Dot(Sub(PointAt(start1, end1, s), start2), Sub(end2, start2)), LengthSq(Sub(end2, start2))) == t
  {
    DotOfPointAt(Sub(end2, start2), start1, end1, start2, s);
    RatioIsT(Dot(Sub(end2, start2), Sub(end2, start2)), t,
             Dot(Sub(end1, start1), Sub(end2, start2)), s, Dot(Sub(end2, start2), Sub(start1, start2)));
  }

  lemma RatioIsT(e: real, t: real, d: real, s: real, f: real)
    requires e > 0.0 && Solves(e, t, d, s, f) && 0.0 <= t <= 1.0
    ensures ClampedRatioOf(Affine(d, s, f), e) == t
  {
    assert Affine(d, s, f) / e == t;
  }

  /** w . (start1 + s d1 - start2) = (d1 . w) s + w . (start1 - start2). */
  lemma DotOfPointAt(w: Vec3, start1: Vec3, end1: Vec3, start2: Vec3, s: real)
    ensures Dot(Sub(PointAt(start1, end1, s), start2), w) ==
            Affine(Dot(Sub(end1, start1), w), s, Dot(w, Sub(start1, start2)))
  {
  }
}
