// The separating-axis test of two oriented boxes (the fifteen candidate
// axes of Gottschalk's OBB-tree test, in the form of Ericson's Real-Time
// Collision Detection, section 4.4.1). Box b is expressed in box a's frame:
// R[j][i] = a_i . b_j, t holds the centers' offset in a's coordinates, and
// absR = |R| + eps absorbs rounding when two edges are parallel. An axis
// separates the boxes when the projected center distance exceeds the sum
// of the projected radii.
//
// The engine writes the nine edge-edge axes out by hand. The one for
// A0 x B1 weighs absR[2][0] with b's y half extent where the derivation
// gives b's x half extent; that test is kept as written next to the
// derived one.
module ObbSeparation {
  import opened Vectors
  import opened GeometryBox
  import opened Volumes
  import opened Frames

  /** The 1e-8 the box's own test adds to each |R[j][i]|. */
  const SatEpsilon: real := 0.00000001

  /** |r| + eps, one entry of absR. */
  function AbsEntry(r: real, eps: real): real {
    Abs(r) + eps
  }

  /** absR: every entry of R made absolute and raised by eps. */
  function AbsMatrix(R: Mat3, eps: real): Mat3 {
    [[AbsEntry(R[0][0], eps), AbsEntry(R[0][1], eps), AbsEntry(R[0][2], eps)],
     [AbsEntry(R[1][0], eps), AbsEntry(R[1][1], eps), AbsEntry(R[1][2], eps)],
     [AbsEntry(R[2][0], eps), AbsEntry(R[2][1], eps), AbsEntry(R[2][2], eps)]]
  }

  /** Entry [j][i] of absR is |R[j][i]| + eps, at least |R[j][i]| when eps is non-negative. */
  lemma AbsMatrixAt(R: Mat3, eps: real, j: nat, i: nat)
    requires j < 3 && i < 3
    ensures AbsMatrix(R, eps)[j][i] == AbsEntry(R[j][i], eps)
  {
  }

  /** One candidate axis: the projected center distance and the two projected radii. */
  datatype AxisTest = AxisTest(dist: real, ra: real, rb: real)

  /** The engine's `fabs(dist) > ra + rb`: this axis separates the boxes. */
  predicate Separates(x: AxisTest) {
    Abs(x.dist) > x.ra + x.rb
  }

  /** No axis of the list separates the boxes: the loop runs through without an early return. */
  predicate NoneSeparates(tests: seq<AxisTest>) {
    forall k :: 0 <= k < |tests| ==> !Separates(tests[k])
  }

  /** The axis A_i of box a. */
  function FaceATest(absR: Mat3, h: Vec3, bh: Vec3, t: Vec3, i: nat): AxisTest
    requires i < 3
  {
    AxisTest(At(t, i), At(h, i), Lin3(bh.x, absR[0][i], bh.y, absR[1][i], bh.z, absR[2][i]))
  }

  /** The axis B_i of box b. */
  function FaceBTest(R: Mat3, absR: Mat3, h: Vec3, bh: Vec3, t: Vec3, i: nat): AxisTest
    requires i < 3
  {
    AxisTest(Lin3(t.x, R[i][0], t.y, R[i][1], t.z, R[i][2]),
             Lin3(h.x, absR[i][0], h.y, absR[i][1], h.z, absR[i][2]), At(bh, i))
  }

  /** The smaller of the two indices other than i. */
  function Low(i: nat): nat { if i == 0 then 1 else 0 }

  /** The larger of the two indices other than i. */
  function High(i: nat): nat { if i == 2 then 1 else 2 }

  /**
   * The axis A_i x B_j as the derivation gives it: with p < q the two
   * indices of a other than i and m < n the two of b other than j, the
   * distance is t_q R[j][p] - t_p R[j][q], a's radius is
   * h_p absR[j][q] + h_q absR[j][p] and b's is bh_m absR[n][i] + bh_n absR[m][i].
   */
  function CrossTest(R: Mat3, absR: Mat3, h: Vec3, bh: Vec3, t: Vec3, i: nat, j: nat): AxisTest
    requires i < 3 && j < 3
  {
    var p, q, m, n := Low(i), High(i), Low(j), High(j);
    AxisTest(Det2(At(t, q), R[j][p], At(t, p), R[j][q]),
             Lin2(At(h, p), absR[j][q], At(h, q), absR[j][p]),
             Lin2(At(bh, m), absR[n][i], At(bh, n), absR[m][i]))
  }

  /** The nine edge-edge tests exactly as the engine writes them, A_i x B_j. */
  function CrossTestAsWritten(R: Mat3, absR: Mat3, h: Vec3, bh: Vec3, t: Vec3, i: nat, j: nat): AxisTest
    requires i < 3 && j < 3
  {
    if i == 0 && j == 0 then
      AxisTest(Det2(t.z, R[0][1], t.y, R[0][2]), Lin2(h.y, absR[0][2], h.z, absR[0][1]), Lin2(bh.y, absR[2][0], bh.z, absR[1][0]))
    else if i == 0 && j == 1 then
      AxisTest(Det2(t.z, R[1][1], t.y, R[1][2]), Lin2(h.y, absR[1][2], h.z, absR[1][1]), Lin2(bh.y, absR[2][0], bh.z, absR[0][0]))
    else if i == 0 then
      AxisTest(Det2(t.z, R[2][1], t.y, R[2][2]), Lin2(h.y, absR[2][2], h.z, absR[2][1]), Lin2(bh.x, absR[1][0], bh.y, absR[0][0]))
    else if i == 1 && j == 0 then
      AxisTest(Det2(t.x, R[0][2], t.z, R[0][0]), Lin2(h.x, absR[0][2], h.z, absR[0][0]), Lin2(bh.y, absR[2][1], bh.z, absR[1][1]))
    else if i == 1 && j == 1 then
      AxisTest(Det2(t.x, R[1][2], t.z, R[1][0]), Lin2(h.x, absR[1][2], h.z, absR[1][0]), Lin2(bh.x, absR[2][1], bh.z, absR[0][1]))
    else if i == 1 then
      AxisTest(Det2(t.x, R[2][2], t.z, R[2][0]), Lin2(h.x, absR[2][2], h.z, absR[2][0]), Lin2(bh.x, absR[1][1], bh.y, absR[0][1]))
    else if j == 0 then
      AxisTest(Det2(t.y, R[0][0], t.x, R[0][1]), Lin2(h.x, absR[0][1], h.y, absR[0][0]), Lin2(bh.y, absR[2][2], bh.z, absR[1][2]))
    else if j == 1 then
      AxisTest(Det2(t.y, R[1][0], t.x, R[1][1]), Lin2(h.x, absR[1][1], h.y, absR[1][0]), Lin2(bh.x, absR[2][2], bh.z, absR[0][2]))
    else
      AxisTest(Det2(t.y, R[2][0], t.x, R[2][1]), Lin2(h.x, absR[2][1], h.y, absR[2][0]), Lin2(bh.x, absR[1][2], bh.y, absR[0][2]))
  }

  /** The fifteen tests in the engine's order: A0..A2, B0..B2, then A_i x B_j with j varying fastest. */
  function SatTests(R: Mat3, absR: Mat3, h: Vec3, bh: Vec3, t: Vec3): (ts: seq<AxisTest>)
    ensures |ts| == 15
  {
    [FaceATest(absR, h, bh, t, 0), FaceATest(absR, h, bh, t, 1), FaceATest(absR, h, bh, t, 2),
     FaceBTest(R, absR, h, bh, t, 0), FaceBTest(R, absR, h, bh, t, 1), FaceBTest(R, absR, h, bh, t, 2),
     CrossTest(R, absR, h, bh, t, 0, 0), CrossTest(R, absR, h, bh, t, 0, 1), CrossTest(R, absR, h, bh, t, 0, 2),
     CrossTest(R, absR, h, bh, t, 1, 0), CrossTest(R, absR, h, bh, t, 1, 1), CrossTest(R, absR, h, bh, t, 1, 2),
     CrossTest(R, absR, h, bh, t, 2, 0), CrossTest(R, absR, h, bh, t, 2, 1), CrossTest(R, absR, h, bh, t, 2, 2)]
  }

  /** The fifteen tests with the edge-edge ones as the engine writes them. */
  function SatTestsAsWritten(R: Mat3, absR: Mat3, h: Vec3, bh: Vec3, t: Vec3): (ts: seq<AxisTest>)
    ensures |ts| == 15
  {
    [FaceATest(absR, h, bh, t, 0), FaceATest(absR, h, bh, t, 1), FaceATest(absR, h, bh, t, 2),
     FaceBTest(R, absR, h, bh, t, 0), FaceBTest(R, absR, h, bh, t, 1), FaceBTest(R, absR, h, bh, t, 2),
     CrossTestAsWritten(R, absR, h, bh, t, 0, 0), CrossTestAsWritten(R, absR, h, bh, t, 0, 1),
     CrossTestAsWritten(R, absR, h, bh, t, 0, 2), CrossTestAsWritten(R, absR, h, bh, t, 1, 0),
     CrossTestAsWritten(R, absR, h, bh, t, 1, 1), CrossTestAsWritten(R, absR, h, bh, t, 1, 2),
     CrossTestAsWritten(R, absR, h, bh, t, 2, 0), CrossTestAsWritten(R, absR, h, bh, t, 2, 1),
     CrossTestAsWritten(R, absR, h, bh, t, 2, 2)]
  }

  // ---------------------------------------------------------------------
  // The hand-written edge-edge tests against the derived ones
  // ---------------------------------------------------------------------

  /** Every hand-written edge-edge test but A0 x B1 decides as the derived one does. */
  lemma CrossTestAsWrittenMatches(R: Mat3, absR: Mat3, h: Vec3, bh: Vec3, t: Vec3, i: nat, j: nat)
    requires i < 3 && j < 3 && !(i == 0 && j == 1)
    ensures Separates(CrossTestAsWritten(R, absR, h, bh, t, i, j)) == Separates(CrossTest(R, absR, h, bh, t, i, j))
  {
    if i == 1 {
      Det2Swapped(t.z, R[j][0], t.x, R[j][2]);
    }
  }

  /** Exchanging the two products negates the determinant, so its absolute value stays. */
  lemma Det2Swapped(a: real, b: real, c: real, d: real)
    ensures Abs(Det2(c, d, a, b)) == Abs(Det2(a, b, c, d))
  {
    assert Det2(c, d, a, b) == -Det2(a, b, c, d);
  }

  /**
   * The hand-written A0 x B1 test has the derived distance and a's radius,
   * but b's radius is off by (bh.y - bh.x) absR[2][0].
   */
  lemma CrossTestA0B1(R: Mat3, absR: Mat3, h: Vec3, bh: Vec3, t: Vec3)
    ensures var w, d := CrossTestAsWritten(R, absR, h, bh, t, 0, 1), CrossTest(R, absR, h, bh, t, 0, 1);
            w.dist == d.dist && w.ra == d.ra && w.rb == d.rb + (bh.y - bh.x) * absR[2][0]
  {
  }

  /** When b's x and y half extents agree, the hand-written tests decide as the derived ones. */
  lemma SatTestsAsWrittenAgree(R: Mat3, absR: Mat3, h: Vec3, bh: Vec3, t: Vec3)
    requires bh.x == bh.y
    ensures NoneSeparates(SatTestsAsWritten(R, absR, h, bh, t)) == NoneSeparates(SatTests(R, absR, h, bh, t))
  {
    CrossTestA0B1(R, absR, h, bh, t);
    CrossTestAsWrittenMatches(R, absR, h, bh, t, 0, 0);
    CrossTestAsWrittenMatches(R, absR, h, bh, t, 0, 2);
    CrossTestAsWrittenMatches(R, absR, h, bh, t, 1, 0);
    CrossTestAsWrittenMatches(R, absR, h, bh, t, 1, 1);
    CrossTestAsWrittenMatches(R, absR, h, bh, t, 1, 2);
    CrossTestAsWrittenMatches(R, absR, h, bh, t, 2, 0);
    CrossTestAsWrittenMatches(R, absR, h, bh, t, 2, 1);
    CrossTestAsWrittenMatches(R, absR, h, bh, t, 2, 2);
    var w, d := SatTestsAsWritten(R, absR, h, bh, t), SatTests(R, absR, h, bh, t);
    assert forall k :: 0 <= k < 15 ==> Separates(w[k]) == Separates(d[k]);
  }

  /**
   * When b's x half extent exceeds its y half extent, the hand-written
   * A0 x B1 radius is too small: with the derived test passing, the written
   * one still separates whenever |dist| lies in the gap between the radii.
   */
  lemma CrossTestA0B1TooSmall(R: Mat3, absR: Mat3, h: Vec3, bh: Vec3, t: Vec3)
    requires bh.y < bh.x && absR[2][0] > 0.0
    ensures var w, d := CrossTestAsWritten(R, absR, h, bh, t, 0, 1), CrossTest(R, absR, h, bh, t, 0, 1);
            w.rb < d.rb
  {
    CrossTestA0B1(R, absR, h, bh, t);
    MulPositive(bh.x - bh.y, absR[2][0]);
  }

  // ---------------------------------------------------------------------
  // Soundness of the derived test: boxes that share a point are never
  // separated. The point has box coordinates u in a and v in b.
  // ---------------------------------------------------------------------

  /** Coordinate k, in a's frame, of v.x b0 + v.y b1 + v.z b2 when R relates the frames. */
  function Carried(v: Vec3, R: Mat3, k: nat): real
    requires k < 3
  {
    Lin3(v.x, R[0][k], v.y, R[1][k], v.z, R[2][k])
  }

  /**
   * The offset of b's center from a's, in a's frame, when a point has
   * coordinates u in a and v in b: u minus v carried into a's frame.
   */
  function CoordsInA(u: Vec3, v: Vec3, R: Mat3): Vec3 {
    Vec3(u.x - Carried(v, R, 0), u.y - Carried(v, R, 1), u.z - Carried(v, R, 2))
  }

  lemma CoordsInAAt(u: Vec3, v: Vec3, R: Mat3, k: nat)
    requires k < 3
    ensures At(CoordsInA(u, v, R), k) == At(u, k) - Carried(v, R, k)
  {
  }

  /** A term x r with |x| <= b is at most b (|r| + eps) in absolute value. */
  lemma ProductBound(x: real, b: real, r: real, eps: real)
    requires Abs(x) <= b && eps >= 0.0
    ensures Abs(x * r) <= b * AbsEntry(r, eps)
  {
    AbsProduct(x, r);
    MulNonNegative(b - Abs(x), Abs(r));
    MulNonNegative(b, eps);
    assert (b - Abs(x)) * Abs(r) == b * Abs(r) - Abs(x) * Abs(r);
    assert b * AbsEntry(r, eps) == b * Abs(r) + b * eps;
  }

  /** |x0 r0 + x1 r1| <= b0 (|r0| + eps) + b1 (|r1| + eps) when |x_k| <= b_k. */
  lemma Lin2Bound(x0: real, r0: real, x1: real, r1: real, b0: real, b1: real, eps: real)
    requires Abs(x0) <= b0 && Abs(x1) <= b1 && eps >= 0.0
    ensures Abs(Lin2(x0, r0, x1, r1)) <= Lin2(b0, AbsEntry(r0, eps), b1, AbsEntry(r1, eps))
  {
    ProductBound(x0, b0, r0, eps);
    ProductBound(x1, b1, r1, eps);
  }

  /** |x0 r0 + x1 r1 + x2 r2| <= sum of b_k (|r_k| + eps) when |x_k| <= b_k. */
  lemma Lin3Bound(x0: real, r0: real, x1: real, r1: real, x2: real, r2: real, b0: real, b1: real, b2: real, eps: real)
    requires Abs(x0) <= b0 && Abs(x1) <= b1 && Abs(x2) <= b2 && eps >= 0.0
    ensures Abs(Lin3(x0, r0, x1, r1, x2, r2)) <= Lin3(b0, AbsEntry(r0, eps), b1, AbsEntry(r1, eps), b2, AbsEntry(r2, eps))
  {
    ProductBound(x0, b0, r0, eps);
    ProductBound(x1, b1, r1, eps);
    ProductBound(x2, b2, r2, eps);
  }

  /** A coordinate within the extents is bounded by the extent on that axis. */
  lemma WithinExtentsAt(u: Vec3, h: Vec3, k: nat)
    requires WithinExtents(u, h) && k < 3
    ensures Abs(At(u, k)) <= At(h, k)
  {
  }

  /** Test A_i never separates boxes that share a point. */
  lemma FaceATestSound(R: Mat3, eps: real, h: Vec3, bh: Vec3, u: Vec3, v: Vec3, i: nat)
    requires WithinExtents(u, h) && WithinExtents(v, bh) && eps >= 0.0 && i < 3
    ensures !Separates(FaceATest(AbsMatrix(R, eps), h, bh, CoordsInA(u, v, R), i))
  {
    CoordsInAAt(u, v, R, i);
    WithinExtentsAt(u, h, i);
    Lin3Bound(v.x, R[0][i], v.y, R[1][i], v.z, R[2][i], bh.x, bh.y, bh.z, eps);
    AbsMatrixAt(R, eps, 0, i);
    AbsMatrixAt(R, eps, 1, i);
    AbsMatrixAt(R, eps, 2, i);
  }

  /**
   * The distance of test B_i, rewritten: u projected on row i of R, minus
   * v weighed with the dot products of row i with each row of R.
   */
  lemma FaceBExpand(u: Vec3, v: Vec3, R: Mat3, i: nat)
    requires i < 3
    ensures var t := CoordsInA(u, v, R);
            Lin3(t.x, R[i][0], t.y, R[i][1], t.z, R[i][2]) ==
            Lin3(u.x, R[i][0], u.y, R[i][1], u.z, R[i][2]) - Lin3(v.x, RowDot(R, 0, i), v.y, RowDot(R, 1, i), v.z, RowDot(R, 2, i))
  {
    LinearInFirst(u.x, u.y, u.z, Carried(v, R, 0), Carried(v, R, 1), Carried(v, R, 2), R[i][0], R[i][1], R[i][2]);
    SwapSums(v.x, v.y, v.z, R[0][0], R[0][1], R[0][2], R[1][0], R[1][1], R[1][2], R[2][0], R[2][1], R[2][2],
             R[i][0], R[i][1], R[i][2]);
  }

  /** Lin3 is linear in its weights: (u - c) . r = u . r - c . r. */
  lemma LinearInFirst(u0: real, u1: real, u2: real, c0: real, c1: real, c2: real, r0: real, r1: real, r2: real)
    ensures Lin3(u0 - c0, r0, u1 - c1, r1, u2 - c2, r2) == Lin3(u0, r0, u1, r1, u2, r2) - Lin3(c0, r0, c1, r1, c2, r2)
  {
  }

  /** Exchanging the order of a double sum: sum_k (sum_m v_m a_mk) r_k = sum_m v_m (sum_k a_mk r_k). */
  lemma SwapSums(v0: real, v1: real, v2: real, a00: real, a01: real, a02: real, a10: real, a11: real, a12: real,
                 a20: real, a21: real, a22: real, r0: real, r1: real, r2: real)
    ensures Lin3(Lin3(v0, a00, v1, a10, v2, a20), r0, Lin3(v0, a01, v1, a11, v2, a21), r1, Lin3(v0, a02, v1, a12, v2, a22), r2)
         == Lin3(v0, Lin3(a00, r0, a01, r1, a02, r2), v1, Lin3(a10, r0, a11, r1, a12, r2), v2, Lin3(a20, r0, a21, r1, a22, r2))
  {
  }

  /** Weighing v with the row products of an orthonormal R picks out v's coordinate i. */
  lemma RowDotsPick(v: Vec3, R: Mat3, i: nat)
    requires RowsOrthonormal(R) && i < 3
    ensures Lin3(v.x, RowDot(R, 0, i), v.y, RowDot(R, 1, i), v.z, RowDot(R, 2, i)) == At(v, i)
  {
    assert RowDot(R, 0, i) == if i == 0 then 1.0 else 0.0;
    assert RowDot(R, 1, i) == if i == 1 then 1.0 else 0.0;
    assert RowDot(R, 2, i) == if i == 2 then 1.0 else 0.0;
  }

  /** Test B_i never separates boxes that share a point, when R has orthonormal rows. */
  lemma FaceBTestSound(R: Mat3, eps: real, h: Vec3, bh: Vec3, u: Vec3, v: Vec3, i: nat)
    requires RowsOrthonormal(R)
    requires WithinExtents(u, h) && WithinExtents(v, bh) && eps >= 0.0 && i < 3
    ensures !Separates(FaceBTest(R, AbsMatrix(R, eps), h, bh, CoordsInA(u, v, R), i))
  {
    FaceBExpand(u, v, R, i);
    RowDotsPick(v, R, i);
    WithinExtentsAt(v, bh, i);
    Lin3Bound(u.x, R[i][0], u.y, R[i][1], u.z, R[i][2], h.x, h.y, h.z, eps);
    AbsMatrixAt(R, eps, i, 0);
    AbsMatrixAt(R, eps, i, 1);
    AbsMatrixAt(R, eps, i, 2);
  }

  /** (u_q - c_q) a - (u_p - c_p) b = (u_q a - u_p b) - (c_q a - c_p b). */
  lemma Det2LinearInFirst(uq: real, cq: real, a: real, up: real, cp: real, b: real)
    ensures Det2(uq - cq, a, up - cp, b) == Det2(uq, a, up, b) - Det2(cq, a, cp, b)
  {
  }

  /** A determinant of two weighted sums with the same weights is the weighted sum of the determinants. */
  lemma Det2OfSums(v0: real, v1: real, v2: real, x0: real, x1: real, x2: real, y0: real, y1: real, y2: real, a: real, b: real)
    ensures Det2(Lin3(v0, x0, v1, x1, v2, x2), a, Lin3(v0, y0, v1, y1, v2, y2), b)
         == Lin3(v0, Det2(x0, a, y0, b), v1, Det2(x1, a, y1, b), v2, Det2(x2, a, y2, b))
  {
  }

  /**
   * The distance of test A_i x B_j, rewritten: the part from u, minus v
   * weighed with the 2x2 minors of R on rows j, m and columns p, q.
   */
  lemma CrossExpand(u: Vec3, v: Vec3, R: Mat3, i: nat, j: nat)
    requires i < 3 && j < 3
    ensures var t, p, q := CoordsInA(u, v, R), Low(i), High(i);
            Det2(At(t, q), R[j][p], At(t, p), R[j][q]) ==
            Det2(At(u, q), R[j][p], At(u, p), R[j][q]) -
            Lin3(v.x, Minor(R, p, q, j, 0), v.y, Minor(R, p, q, j, 1), v.z, Minor(R, p, q, j, 2))
  {
    var p, q := Low(i), High(i);
    CoordsInAAt(u, v, R, p);
    CoordsInAAt(u, v, R, q);
    Det2LinearInFirst(At(u, q), Carried(v, R, q), R[j][p], At(u, p), Carried(v, R, p), R[j][q]);
    Det2OfSums(v.x, v.y, v.z, R[0][q], R[1][q], R[2][q], R[0][p], R[1][p], R[2][p], R[j][p], R[j][q]);
  }

  /** The minor on rows j, j vanishes, so only b's two other coordinates m, n contribute. */
  lemma MinorsPick(v: Vec3, R: Mat3, p: nat, q: nat, j: nat)
    requires p < 3 && q < 3 && j < 3
    ensures Lin3(v.x, Minor(R, p, q, j, 0), v.y, Minor(R, p, q, j, 1), v.z, Minor(R, p, q, j, 2)) ==
            Lin2(At(v, Low(j)), Minor(R, p, q, j, Low(j)), At(v, High(j)), Minor(R, p, q, j, High(j)))
  {
    assert Minor(R, p, q, j, j) == 0.0;
  }

  /** Test A_i x B_j never separates boxes that share a point, when R is orthogonal. */
  lemma CrossTestSound(R: Mat3, eps: real, h: Vec3, bh: Vec3, u: Vec3, v: Vec3, i: nat, j: nat)
    requires MinorsMatchEntries(R)
    requires WithinExtents(u, h) && WithinExtents(v, bh) && eps >= 0.0 && i < 3 && j < 3
    ensures !Separates(CrossTest(R, AbsMatrix(R, eps), h, bh, CoordsInA(u, v, R), i, j))
  {
    var p, q, m, n := Low(i), High(i), Low(j), High(j);
    CrossExpand(u, v, R, i, j);
    MinorsPick(v, R, p, q, j);
    assert Third(p, q) == i && Third(j, m) == n && Third(j, n) == m;
    var mm, mn := Minor(R, p, q, j, m), Minor(R, p, q, j, n);
    assert AbsEntry(mm, eps) == AbsEntry(R[n][i], eps);
    assert AbsEntry(mn, eps) == AbsEntry(R[m][i], eps);
    WithinExtentsAt(u, h, p);
    WithinExtentsAt(u, h, q);
    WithinExtentsAt(v, bh, m);
    WithinExtentsAt(v, bh, n);
    Det2Bound(At(u, q), R[j][p], At(u, p), R[j][q], At(h, q), At(h, p), eps);
    Lin2Bound(At(v, m), mm, At(v, n), mn, At(bh, m), At(bh, n), eps);
    AbsMatrixAt(R, eps, j, p);
    AbsMatrixAt(R, eps, j, q);
    AbsMatrixAt(R, eps, n, i);
    AbsMatrixAt(R, eps, m, i);
    DifferenceBound(Det2(At(u, q), R[j][p], At(u, p), R[j][q]), Lin2(At(v, m), mm, At(v, n), mn),
                    Lin2(At(h, p), AbsEntry(R[j][q], eps), At(h, q), AbsEntry(R[j][p], eps)),
                    Lin2(At(bh, m), AbsEntry(R[n][i], eps), At(bh, n), AbsEntry(R[m][i], eps)));
  }

  /** |a x - b y| <= hb (|y| + eps) + ha (|x| + eps) when |a| <= ha and |b| <= hb. */
  lemma Det2Bound(a: real, x: real, b: real, y: real, ha: real, hb: real, eps: real)
    requires Abs(a) <= ha && Abs(b) <= hb && eps >= 0.0
    ensures Abs(Det2(a, x, b, y)) <= Lin2(hb, AbsEntry(y, eps), ha, AbsEntry(x, eps))
  {
    ProductBound(a, ha, x, eps);
    ProductBound(b, hb, y, eps);
  }

  /** |d - l| <= ra + rb when |d| <= ra and |l| <= rb. */
  lemma DifferenceBound(d: real, l: real, ra: real, rb: real)
    requires Abs(d) <= ra && Abs(l) <= rb
    ensures !Separates(AxisTest(d - l, ra, rb))
  {
  }

  /** With R orthogonal, none of the fifteen derived tests separates boxes that share a point. */
  lemma SatTestsSound(R: Mat3, eps: real, h: Vec3, bh: Vec3, u: Vec3, v: Vec3)
    requires Orthogonal(R)
    requires WithinExtents(u, h) && WithinExtents(v, bh) && eps >= 0.0
    ensures NoneSeparates(SatTests(R, AbsMatrix(R, eps), h, bh, CoordsInA(u, v, R)))
  {
    forall i | 0 <= i < 3
      ensures !Separates(FaceATest(AbsMatrix(R, eps), h, bh, CoordsInA(u, v, R), i))
      ensures !Separates(FaceBTest(R, AbsMatrix(R, eps), h, bh, CoordsInA(u, v, R), i))
    {
      FaceATestSound(R, eps, h, bh, u, v, i);
      FaceBTestSound(R, eps, h, bh, u, v, i);
    }
    forall i, j | 0 <= i < 3 && 0 <= j < 3
      ensures !Separates(CrossTest(R, AbsMatrix(R, eps), h, bh, CoordsInA(u, v, R), i, j))
    {
      CrossTestSound(R, eps, h, bh, u, v, i, j);
    }
  }

  // ---------------------------------------------------------------------
  // The test on two boxes
  // ---------------------------------------------------------------------

  /** R with R[j][i] = a_i . b_j, b's axes in a's frame. */
  function FrameOf(a: ObbGeom, b: ObbGeom): Mat3 {
    FrameMatrix(a.xAxis, a.yAxis, a.zAxis, b.xAxis, b.yAxis, b.zAxis)
  }

  /** t: b's center relative to a's, in a's frame. */
  function OffsetInA(a: ObbGeom, b: ObbGeom): Vec3 {
    Projections(b.center, a.center, a.xAxis, a.yAxis, a.zAxis)
  }

  /** intersectsVolume for two oriented boxes, with the edge-edge tests as written. */
  predicate IntersectsObb(a: ObbGeom, b: ObbGeom) {
    var R := FrameOf(a, b);
    NoneSeparates(SatTestsAsWritten(R, AbsMatrix(R, SatEpsilon), a.extents, b.extents, OffsetInA(a, b)))
  }

  /** The fifteen derived tests with absR = |R| + eps: none of them separates the boxes. */
  predicate NoSeparatingAxis(a: ObbGeom, b: ObbGeom, eps: real) {
    var R := FrameOf(a, b);
    NoneSeparates(SatTests(R, AbsMatrix(R, eps), a.extents, b.extents, OffsetInA(a, b)))
  }

  /** The box's test with the derived A0 x B1 radius. */
  predicate IntersectsObbCorrected(a: ObbGeom, b: ObbGeom) {
    NoSeparatingAxis(a, b, SatEpsilon)
  }

  predicate AxesOrthonormal(o: ObbGeom) {
    Orthonormal(o.xAxis, o.yAxis, o.zAxis)
  }

  /** The point with box coordinates u. */
  function PointOf(o: ObbGeom, u: Vec3): Vec3 {
    BoxPoint(o.center, o.xAxis, o.yAxis, o.zAxis, u.x, u.y, u.z)
  }

  /** Projections relative to two centers differ by the projections of the centers' offset. */
  lemma ProjectionsOfOffset(p: Vec3, ca: Vec3, cb: Vec3, xAxis: Vec3, yAxis: Vec3, zAxis: Vec3)
    ensures Projections(cb, ca, xAxis, yAxis, zAxis) ==
            Sub(Projections(p, ca, xAxis, yAxis, zAxis), Projections(p, cb, xAxis, yAxis, zAxis))
  {
    DotDifference(Sub(p, ca), Sub(p, cb), xAxis);
    DotDifference(Sub(p, ca), Sub(p, cb), yAxis);
    DotDifference(Sub(p, ca), Sub(p, cb), zAxis);
    assert Sub(cb, ca) == Sub(Sub(p, ca), Sub(p, cb));
  }

  lemma DotDifference(x: Vec3, y: Vec3, w: Vec3)
    ensures Dot(Sub(x, y), w) == Dot(x, w) - Dot(y, w)
  {
  }

  /**
   * When a point has coordinates u in a and v in b, the offset of the
   * centers in a's frame is u minus v carried into a's frame.
   */
  lemma OffsetInACoords(a: ObbGeom, b: ObbGeom, u: Vec3, v: Vec3)
    requires AxesOrthonormal(a)
    requires PointOf(a, u) == PointOf(b, v)
    ensures OffsetInA(a, b) == CoordsInA(u, v, FrameOf(a, b))
  {
    var p := PointOf(a, u);
    var R := FrameOf(a, b);
    BoxPointCoordinates(a.center, a.xAxis, a.yAxis, a.zAxis, u.x, u.y, u.z);
    ProjectionsOfOffset(p, a.center, b.center, a.xAxis, a.yAxis, a.zAxis);
    var w := Sub(p, b.center);
    assert w == Add(Add(Scale(v.x, b.xAxis), Scale(v.y, b.yAxis)), Scale(v.z, b.zAxis));
    CarriedIsProjection(a, b, v, w);
  }

  /** The projections of v.x b0 + v.y b1 + v.z b2 on a's axes are v carried by the frame matrix. */
  lemma CarriedIsProjection(a: ObbGeom, b: ObbGeom, v: Vec3, w: Vec3)
    requires w == Add(Add(Scale(v.x, b.xAxis), Scale(v.y, b.yAxis)), Scale(v.z, b.zAxis))
    ensures Vec3(Dot(w, a.xAxis), Dot(w, a.yAxis), Dot(w, a.zAxis)) ==
            Vec3(Carried(v, FrameOf(a, b), 0), Carried(v, FrameOf(a, b), 1), Carried(v, FrameOf(a, b), 2))
  {
    CoordinateOf(b.xAxis, b.yAxis, b.zAxis, v.x, v.y, v.z, a.xAxis);
    CoordinateOf(b.xAxis, b.yAxis, b.zAxis, v.x, v.y, v.z, a.yAxis);
    CoordinateOf(b.xAxis, b.yAxis, b.zAxis, v.x, v.y, v.z, a.zAxis);
    DotSymmetric(a.xAxis, b.xAxis);
    DotSymmetric(a.xAxis, b.yAxis);
    DotSymmetric(a.xAxis, b.zAxis);
    DotSymmetric(a.yAxis, b.xAxis);
    DotSymmetric(a.yAxis, b.yAxis);
    DotSymmetric(a.yAxis, b.zAxis);
    DotSymmetric(a.zAxis, b.xAxis);
    DotSymmetric(a.zAxis, b.yAxis);
    DotSymmetric(a.zAxis, b.zAxis);
  }

  /**
   * Soundness: two boxes with orthonormal axes that share a point (box
   * coordinates u in a within a's extents, v in b within b's) are never
   * separated by the derived test.
   */
  lemma NoSeparatingAxisSound(a: ObbGeom, b: ObbGeom, u: Vec3, v: Vec3, eps: real)
    requires AxesOrthonormal(a) && AxesOrthonormal(b) && eps >= 0.0
    requires WithinExtents(u, a.extents) && WithinExtents(v, b.extents)
    requires PointOf(a, u) == PointOf(b, v)
    ensures NoSeparatingAxis(a, b, eps)
  {
    OffsetInACoords(a, b, u, v);
    FrameMatrixOrthogonal(a.xAxis, a.yAxis, a.zAxis, b.xAxis, b.yAxis, b.zAxis);
    SatTestsSound(FrameOf(a, b), eps, a.extents, b.extents, u, v);
  }

  /** The test as written agrees with the derived one when b's x and y half extents are equal. */
  lemma IntersectsObbAgrees(a: ObbGeom, b: ObbGeom)
    requires b.extents.x == b.extents.y
    ensures IntersectsObb(a, b) == IntersectsObbCorrected(a, b)
  {
    var R := FrameOf(a, b);
    SatTestsAsWrittenAgree(R, AbsMatrix(R, SatEpsilon), a.extents, b.extents, OffsetInA(a, b));
  }

  // ---------------------------------------------------------------------
  // The loops of intersectsVolume(OBB)
  // ---------------------------------------------------------------------

  /** Two matrices with the same nine entries are equal. */
  lemma MatricesEqual(M: Mat3, N: Mat3)
    requires forall j, i :: 0 <= j < 3 && 0 <= i < 3 ==> M[j][i] == N[j][i]
    ensures M == N
  {
    assert M[0] == N[0] && M[1] == N[1] && M[2] == N[2];
  }

  /** The nested loop `R[j][i] = dot(axis[i], bAxis[j])`: it builds the frame matrix. */
  method FillFrameMatrix(axis: seq<Vec3>, bAxis: seq<Vec3>) returns (R: Mat3)
    requires |axis| == 3 && |bAxis| == 3
    ensures R == FrameMatrix(axis[0], axis[1], axis[2], bAxis[0], bAxis[1], bAxis[2])
  {
    R := [[0.0, 0.0, 0.0], [0.0, 0.0, 0.0], [0.0, 0.0, 0.0]];
    for i := 0 to 3
      invariant forall j, k :: 0 <= j < 3 && 0 <= k < i ==> R[j][k] == Dot(axis[k], bAxis[j])
    {
      for j := 0 to 3
        invariant forall jj, k :: 0 <= jj < 3 && 0 <= k < i ==> R[jj][k] == Dot(axis[k], bAxis[jj])
        invariant forall jj :: 0 <= jj < j ==> R[jj][i] == Dot(axis[i], bAxis[jj])
      {
        R := R[j := R[j][i := Dot(axis[i], bAxis[j])]];
      }
    }
    var F := FrameMatrix(axis[0], axis[1], axis[2], bAxis[0], bAxis[1], bAxis[2]);
    forall j, i | 0 <= j < 3 && 0 <= i < 3
      ensures R[j][i] == F[j][i]
    {
      FrameMatrixAt(axis[0], axis[1], axis[2], bAxis[0], bAxis[1], bAxis[2], j, i);
      assert axis[i] == AxisAt(axis[0], axis[1], axis[2], i);
      assert bAxis[j] == AxisAt(bAxis[0], bAxis[1], bAxis[2], j);
    }
    MatricesEqual(R, F);
  }

  /** The nested loop `absR[j][i] = fabs(R[j][i]) + eps`. */
  method FillAbsMatrix(R: Mat3, eps: real) returns (absR: Mat3)
    ensures absR == AbsMatrix(R, eps)
  {
    absR := [[0.0, 0.0, 0.0], [0.0, 0.0, 0.0], [0.0, 0.0, 0.0]];
    for i := 0 to 3
      invariant forall j, k :: 0 <= j < 3 && 0 <= k < i ==> absR[j][k] == AbsEntry(R[j][k], eps)
    {
      for j := 0 to 3
        invariant forall jj, k :: 0 <= jj < 3 && 0 <= k < i ==> absR[jj][k] == AbsEntry(R[jj][k], eps)
        invariant forall jj :: 0 <= jj < j ==> absR[jj][i] == AbsEntry(R[jj][i], eps)
      {
        absR := absR[j := absR[j][i := Abs(R[j][i]) + eps]];
      }
    }
    forall j, i | 0 <= j < 3 && 0 <= i < 3
      ensures absR[j][i] == AbsMatrix(R, eps)[j][i]
    {
      AbsMatrixAt(R, eps, j, i);
    }
    MatricesEqual(absR, AbsMatrix(R, eps));
  }

  /**
   * intersectsVolume(OBB): the three face axes of a, the three of b and
   * the nine edge-edge axes in order, false at the first that separates
   * the boxes and true when none does.
   */
  method IntersectsObbSteps(a: ObbGeom, b: ObbGeom) returns (r: bool)
    ensures r == IntersectsObb(a, b)
  {
    var bAxis := [b.xAxis, b.yAxis, b.zAxis];
    var axis := [a.xAxis, a.yAxis, a.zAxis];
    var R := FillFrameMatrix(axis, bAxis);
    var bh := b.extents;
    var d := Sub(b.center, a.center);
    var t := Vec3(Dot(d, axis[0]), Dot(d, axis[1]), Dot(d, axis[2]));
    var absR := FillAbsMatrix(R, SatEpsilon);
    assert R == FrameOf(a, b) && t == OffsetInA(a, b);
    r := SatSteps(R, absR, a.extents, bh, t);
  }

  /**
   * The fifteen tests over a filled R, absR and t: the three face axes of
   * a, the three of b and the nine edge-edge axes in order, false at the
   * first that separates the boxes and true when none does.
   */
  method SatSteps(R: Mat3, absR: Mat3, h: Vec3, bh: Vec3, t: Vec3) returns (r: bool)
    ensures r == NoneSeparates(SatTestsAsWritten(R, absR, h, bh, t))
  {
    ghost var tests := SatTestsAsWritten(R, absR, h, bh, t);
    for i := 0 to 3
      invariant forall k :: 0 <= k < i ==> !Separates(tests[k])
    {
      var ra := At(h, i);
      var rb := Lin3(bh.x, absR[0][i], bh.y, absR[1][i], bh.z, absR[2][i]);
      if Abs(At(t, i)) > ra + rb {
        assert Separates(tests[i]);
        return false;
      }
      assert !Separates(tests[i]);
    }
    for i := 0 to 3
      invariant forall k :: 0 <= k < 3 + i ==> !Separates(tests[k])
    {
      var ra := Lin3(h.x, absR[i][0], h.y, absR[i][1], h.z, absR[i][2]);
      var rb := At(bh, i);
      if Abs(Lin3(t.x, R[i][0], t.y, R[i][1], t.z, R[i][2])) > ra + rb {
        assert Separates(tests[3 + i]);
        return false;
      }
      assert !Separates(tests[3 + i]);
    }
    r := CrossTestsSteps(R, absR, h, bh, t);
  }

  /** The nine hand-written edge-edge tests of intersectsVolume(OBB), false at the first that separates. */
  method CrossTestsSteps(R: Mat3, absR: Mat3, h: Vec3, bh: Vec3, t: Vec3) returns (r: bool)
    ensures r <==> forall k :: 6 <= k < 15 ==> !Separates(SatTestsAsWritten(R, absR, h, bh, t)[k])
  {
    ghost var tests := SatTestsAsWritten(R, absR, h, bh, t);
    // A0 x B0
    var ra := Lin2(h.y, absR[0][2], h.z, absR[0][1]);
    var rb := Lin2(bh.y, absR[2][0], bh.z, absR[1][0]);
    if Abs(Det2(t.z, R[0][1], t.y, R[0][2])) > ra + rb { assert Separates(tests[6]); return false; }
    // A0 x B1
    ra := Lin2(h.y, absR[1][2], h.z, absR[1][1]);
    rb := Lin2(bh.y, absR[2][0], bh.z, absR[0][0]);
    if Abs(Det2(t.z, R[1][1], t.y, R[1][2])) > ra + rb { assert Separates(tests[7]); return false; }
    // A0 x B2
    ra := Lin2(h.y, absR[2][2], h.z, absR[2][1]);
    rb := Lin2(bh.x, absR[1][0], bh.y, absR[0][0]);
    if Abs(Det2(t.z, R[2][1], t.y, R[2][2])) > ra + rb { assert Separates(tests[8]); return false; }
    // A1 x B0
    ra := Lin2(h.x, absR[0][2], h.z, absR[0][0]);
    rb := Lin2(bh.y, absR[2][1], bh.z, absR[1][1]);
    if Abs(Det2(t.x, R[0][2], t.z, R[0][0])) > ra + rb { assert Separates(tests[9]); return false; }
    // A1 x B1
    ra := Lin2(h.x, absR[1][2], h.z, absR[1][0]);
    rb := Lin2(bh.x, absR[2][1], bh.z, absR[0][1]);
    if Abs(Det2(t.x, R[1][2], t.z, R[1][0])) > ra + rb { assert Separates(tests[10]); return false; }
    // A1 x B2
    ra := Lin2(h.x, absR[2][2], h.z, absR[2][0]);
    rb := Lin2(bh.x, absR[1][1], bh.y, absR[0][1]);
    if Abs(Det2(t.x, R[2][2], t.z, R[2][0])) > ra + rb { assert Separates(tests[11]); return false; }
    // A2 x B0
    ra := Lin2(h.x, absR[0][1], h.y, absR[0][0]);
    rb := Lin2(bh.y, absR[2][2], bh.z, absR[1][2]);
    if Abs(Det2(t.y, R[0][0], t.x, R[0][1])) > ra + rb { assert Separates(tests[12]); return false; }
    // A2 x B1
    ra := Lin2(h.x, absR[1][1], h.y, absR[1][0]);
    rb := Lin2(bh.x, absR[2][2], bh.z, absR[0][2]);
    if Abs(Det2(t.y, R[1][0], t.x, R[1][1])) > ra + rb { assert Separates(tests[13]); return false; }
    // A2 x B2
    ra := Lin2(h.x, absR[2][1], h.y, absR[2][0]);
    rb := Lin2(bh.x, absR[1][2], bh.y, absR[0][2]);
    if Abs(Det2(t.y, R[2][0], t.x, R[2][1])) > ra + rb { assert Separates(tests[14]); return false; }
    assert !Separates(tests[6]) && !Separates(tests[7]) && !Separates(tests[8]);
    assert !Separates(tests[9]) && !Separates(tests[10]) && !Separates(tests[11]);
    assert !Separates(tests[12]) && !Separates(tests[13]) && !Separates(tests[14]);
    return true;
  }

  /**
   * The test as written can miss an overlap. Take a the unit cube at the
   * origin and b the box centered at (0, 2.5, 0) whose axes are y, z and x,
   * with half extents 2, 0.5 and 1: b reaches down to y = 0.5, and both
   * contain the point (0, 0.75, 0). The hand-written A0 x B1 test
   * separates them (2.5 > 1.5 + 3.5e-8); the derived test does not.
   */
  lemma IntersectsObbMissesOverlap(a: ObbGeom, b: ObbGeom, u: Vec3, v: Vec3)
    requires a == ObbGeom(Vec3(0.0, 0.0, 0.0), Vec3(1.0, 0.0, 0.0), Vec3(0.0, 1.0, 0.0), Vec3(0.0, 0.0, 1.0), Vec3(1.0, 1.0, 1.0))
    requires b == ObbGeom(Vec3(0.0, 2.5, 0.0), Vec3(0.0, 1.0, 0.0), Vec3(0.0, 0.0, 1.0), Vec3(1.0, 0.0, 0.0), Vec3(2.0, 0.5, 1.0))
    requires u == Vec3(0.0, 0.75, 0.0) && v == Vec3(-1.75, 0.0, 0.0)
    ensures WithinExtents(u, a.extents) && WithinExtents(v, b.extents)
    ensures PointOf(a, u) == PointOf(b, v) == Vec3(0.0, 0.75, 0.0)
    ensures !IntersectsObb(a, b) && IntersectsObbCorrected(a, b)
  {
    UnitCubePoint(a, u);
    LongBoxPoint(b, v);
    UnitAxesOrthonormal(a.xAxis, a.yAxis, a.zAxis);
    ShiftedAxesOrthonormal(b.zAxis, b.xAxis, b.yAxis);
    LongBoxFrame(a, b);
    LongBoxSeparated(a, b);
    NoSeparatingAxisSound(a, b, u, v, SatEpsilon);
  }

  /** The unit cube of the example holds (0, 0.75, 0). */
  lemma UnitCubePoint(o: ObbGeom, w: Vec3)
    requires o == ObbGeom(Vec3(0.0, 0.0, 0.0), Vec3(1.0, 0.0, 0.0), Vec3(0.0, 1.0, 0.0), Vec3(0.0, 0.0, 1.0), Vec3(1.0, 1.0, 1.0))
    requires w == Vec3(0.0, 0.75, 0.0)
    ensures WithinExtents(w, o.extents)
    ensures PointOf(o, w) == Vec3(0.0, 0.75, 0.0)
  {
  }

  /** The long box of the example holds (0, 0.75, 0). */
  lemma LongBoxPoint(o: ObbGeom, w: Vec3)
    requires o == ObbGeom(Vec3(0.0, 2.5, 0.0), Vec3(0.0, 1.0, 0.0), Vec3(0.0, 0.0, 1.0), Vec3(1.0, 0.0, 0.0), Vec3(2.0, 0.5, 1.0))
    requires w == Vec3(-1.75, 0.0, 0.0)
    ensures WithinExtents(w, o.extents)
    ensures PointOf(o, w) == Vec3(0.0, 0.75, 0.0)
  {
    LongBoxCorner(o);
    assert w.x == -1.75 && w.y == 0.0 && w.z == 0.0;
  }

  /** The point of the long box 1.75 below its center along its first axis. */
  lemma LongBoxCorner(o: ObbGeom)
    requires o == ObbGeom(Vec3(0.0, 2.5, 0.0), Vec3(0.0, 1.0, 0.0), Vec3(0.0, 0.0, 1.0), Vec3(1.0, 0.0, 0.0), Vec3(2.0, 0.5, 1.0))
    ensures BoxPoint(o.center, o.xAxis, o.yAxis, o.zAxis, -1.75, 0.0, 0.0) == Vec3(0.0, 0.75, 0.0)
  {
  }

  /** The unit axes are orthonormal. */
  lemma UnitAxesOrthonormal(x: Vec3, y: Vec3, z: Vec3)
    requires x == Vec3(1.0, 0.0, 0.0) && y == Vec3(0.0, 1.0, 0.0) && z == Vec3(0.0, 0.0, 1.0)
    ensures Orthonormal(x, y, z)
  {
  }

  /** The unit axes shifted by one are orthonormal. */
  lemma ShiftedAxesOrthonormal(x: Vec3, y: Vec3, z: Vec3)
    requires x == Vec3(1.0, 0.0, 0.0) && y == Vec3(0.0, 1.0, 0.0) && z == Vec3(0.0, 0.0, 1.0)
    ensures Orthonormal(y, z, x)
  {
  }

  /** The frame entries, offset and extents of the example make the hand-written test separate. */
  lemma LongBoxSeparated(a: ObbGeom, b: ObbGeom)
    requires var R := FrameOf(a, b);
             R[0][0] == 0.0 && R[1][1] == 0.0 && R[1][2] == 1.0 && R[2][0] == 1.0
    requires OffsetInA(a, b) == Vec3(0.0, 2.5, 0.0)
    requires a.extents == Vec3(1.0, 1.0, 1.0) && b.extents == Vec3(2.0, 0.5, 1.0)
    ensures !IntersectsObb(a, b)
  {
    var R := FrameOf(a, b);
    var absR := AbsMatrix(R, SatEpsilon);
    LongBoxA0B1(R, absR, a.extents, b.extents, OffsetInA(a, b));
    assert Separates(SatTestsAsWritten(R, absR, a.extents, b.extents, OffsetInA(a, b))[7]);
  }

  /** The frame matrix entries and the offset of the long box against the unit cube that the A0 x B1 test reads. */
  lemma LongBoxFrame(a: ObbGeom, b: ObbGeom)
    requires a == ObbGeom(Vec3(0.0, 0.0, 0.0), Vec3(1.0, 0.0, 0.0), Vec3(0.0, 1.0, 0.0), Vec3(0.0, 0.0, 1.0), Vec3(1.0, 1.0, 1.0))
    requires b == ObbGeom(Vec3(0.0, 2.5, 0.0), Vec3(0.0, 1.0, 0.0), Vec3(0.0, 0.0, 1.0), Vec3(1.0, 0.0, 0.0), Vec3(2.0, 0.5, 1.0))
    ensures var R := FrameOf(a, b);
            R[0][0] == 0.0 && R[1][1] == 0.0 && R[1][2] == 1.0 && R[2][0] == 1.0
    ensures OffsetInA(a, b) == Vec3(0.0, 2.5, 0.0)
  {
  }

  /** With the long box's frame matrix entries, offset and extents, the hand-written A0 x B1 test separates. */
  lemma LongBoxA0B1(R: Mat3, absR: Mat3, h: Vec3, bh: Vec3, t: Vec3)
    requires R[0][0] == 0.0 && R[1][1] == 0.0 && R[1][2] == 1.0 && R[2][0] == 1.0
    requires absR == AbsMatrix(R, SatEpsilon)
    requires h == Vec3(1.0, 1.0, 1.0) && bh == Vec3(2.0, 0.5, 1.0) && t == Vec3(0.0, 2.5, 0.0)
    ensures Separates(CrossTestAsWritten(R, absR, h, bh, t, 0, 1))
  {
  }
}
