// Facts about orthonormal frames of three axes: the cross product of two
// axes is the third one up to sign, every vector is the sum of its
// projections on the axes, and the matrix of dot products between the
// axes of two frames is orthogonal with each 2x2 minor equal, up to sign,
// to the complementary entry. The separating-axis test of two oriented
// boxes relies on exactly these facts.
module Frames {
  import opened Vectors
  import opened GeometryBox
  import opened Volumes

  /** (a x b) x w = (a . w) b - (b . w) a. */
  lemma CrossCrossLeft(a: Vec3, b: Vec3, w: Vec3)
    ensures Cross(Cross(a, b), w) == Sub(Scale(Dot(a, w), b), Scale(Dot(b, w), a))
  {
    hide Dot, Cross;
    CrossCrossLeftX(a, b, w);
    CrossCrossLeftY(a, b, w);
    CrossCrossLeftZ(a, b, w);
    var r := Sub(Scale(Dot(a, w), b), Scale(Dot(b, w), a));
    assert r == Vec3(Dot(a, w) * b.x - Dot(b, w) * a.x, Dot(a, w) * b.y - Dot(b, w) * a.y, Dot(a, w) * b.z - Dot(b, w) * a.z);
  }

  lemma CrossCrossLeftX(a: Vec3, b: Vec3, w: Vec3)
    ensures Cross(Cross(a, b), w).x == Dot(a, w) * b.x - Dot(b, w) * a.x
  {
  }

  lemma CrossCrossLeftY(a: Vec3, b: Vec3, w: Vec3)
    ensures Cross(Cross(a, b), w).y == Dot(a, w) * b.y - Dot(b, w) * a.y
  {
  }

  lemma CrossCrossLeftZ(a: Vec3, b: Vec3, w: Vec3)
    ensures Cross(Cross(a, b), w).z == Dot(a, w) * b.z - Dot(b, w) * a.z
  {
  }

  /** a x (b x c) = (a . c) b - (a . b) c. */
  lemma CrossCrossRight(a: Vec3, b: Vec3, c: Vec3)
    ensures Cross(a, Cross(b, c)) == Sub(Scale(Dot(a, c), b), Scale(Dot(a, b), c))
  {
    hide Dot, Cross;
    CrossCrossRightX(a, b, c);
    CrossCrossRightY(a, b, c);
    CrossCrossRightZ(a, b, c);
    var r := Sub(Scale(Dot(a, c), b), Scale(Dot(a, b), c));
    assert r == Vec3(Dot(a, c) * b.x - Dot(a, b) * c.x, Dot(a, c) * b.y - Dot(a, b) * c.y, Dot(a, c) * b.z - Dot(a, b) * c.z);
  }

  lemma CrossCrossRightX(a: Vec3, b: Vec3, c: Vec3)
    ensures Cross(a, Cross(b, c)).x == Dot(a, c) * b.x - Dot(a, b) * c.x
  {
  }

  lemma CrossCrossRightY(a: Vec3, b: Vec3, c: Vec3)
    ensures Cross(a, Cross(b, c)).y == Dot(a, c) * b.y - Dot(a, b) * c.y
  {
  }

  lemma CrossCrossRightZ(a: Vec3, b: Vec3, c: Vec3)
    ensures Cross(a, Cross(b, c)).z == Dot(a, c) * b.z - Dot(a, b) * c.z
  {
  }

  /** The Binet-Cauchy identity: (a . c)(b . d) - (a . d)(b . c) = (a x b) . (c x d). */
  lemma BinetCauchy(a: Vec3, b: Vec3, c: Vec3, d: Vec3)
    ensures Dot(a, c) * Dot(b, d) - Dot(a, d) * Dot(b, c) == Dot(Cross(a, b), Cross(c, d))
  {
  }

  /** A vector orthogonal to two orthogonal unit vectors a and b is a multiple of a x b. */
  lemma OrthogonalToTwo(a: Vec3, b: Vec3, w: Vec3)
    requires Dot(a, a) == 1.0 && Dot(b, b) == 1.0 && Dot(a, b) == 0.0
    requires Dot(a, w) == 0.0 && Dot(b, w) == 0.0
    ensures w == Scale(Dot(Cross(a, b), w), Cross(a, b))
  {
    var n := Cross(a, b);
    CrossCrossLeft(a, b, w);
    assert Cross(n, w) == Zero;
    CrossCrossRight(n, n, w);
    assert Cross(n, Zero) == Zero;
    Lagrange(a, b);
    assert Dot(n, n) == 1.0;
  }

  /** In an orthonormal frame the cross product of the first two axes is the third, up to sign. */
  lemma CrossIsThird(a: Vec3, b: Vec3, c: Vec3)
    requires Orthonormal(a, b, c)
    ensures Cross(a, b) == c || Cross(a, b) == Neg(c)
  {
    var n := Cross(a, b);
    DotSymmetric(a, c);
    DotSymmetric(b, c);
    OrthogonalToTwo(a, b, c);
    var s := Dot(n, c);
    Lagrange(a, b);
    assert Dot(n, n) == 1.0;
    UnitMultiple(n, c, s);
  }

  /** If c = s n with n and c unit vectors then s = 1 or s = -1, so n = c or n = -c. */
  lemma UnitMultiple(n: Vec3, c: Vec3, s: real)
    requires Dot(n, n) == 1.0 && Dot(c, c) == 1.0 && c == Scale(s, n)
    ensures n == c || n == Neg(c)
  {
    assert Dot(c, c) == s * s * Dot(n, n);
    assert (s - 1.0) * (s + 1.0) == 0.0;
    if s == 1.0 {
      assert n == c;
    } else {
      assert s == -1.0;
      assert n == Neg(c);
    }
  }

  /** Orthonormality does not depend on the order of the axes. */
  lemma OrthonormalPermuted(a0: Vec3, a1: Vec3, a2: Vec3, p: nat, q: nat)
    requires Orthonormal(a0, a1, a2)
    requires p < 3 && q < 3 && p != q
    ensures Orthonormal(AxisAt(a0, a1, a2, p), AxisAt(a0, a1, a2, q), AxisAt(a0, a1, a2, Third(p, q)))
  {
    DotSymmetric(a0, a1);
    DotSymmetric(a0, a2);
    DotSymmetric(a1, a2);
  }

  /** The index among 0, 1, 2 that is neither p nor q. */
  function Third(p: nat, q: nat): (r: nat)
    requires p < 3 && q < 3 && p != q
    ensures r < 3 && r != p && r != q
  {
    3 - p - q
  }

  /**
   * Every vector is the sum of its projections on an orthonormal frame:
   * w = (w . a) a + (w . b) b + (w . c) c.
   */
  lemma Completeness(a: Vec3, b: Vec3, c: Vec3, w: Vec3)
    requires Orthonormal(a, b, c)
    ensures w == Add(Add(Scale(Dot(w, a), a), Scale(Dot(w, b), b)), Scale(Dot(w, c), c))
  {
    var comb := Add(Add(Scale(Dot(w, a), a), Scale(Dot(w, b), b)), Scale(Dot(w, c), c));
    var r := Sub(w, comb);
    ResidualOrthogonal(a, b, c, w, a);
    ResidualOrthogonal(a, b, c, w, b);
    ResidualOrthogonal(a, b, c, w, c);
    DotSymmetric(a, r);
    DotSymmetric(b, r);
    OrthogonalToTwo(a, b, r);
    CrossIsThird(a, b, c);
    ZeroResidual(Cross(a, b), c, r);
  }

  /** The residual w - sum of projections has no component along an axis u of the frame. */
  lemma ResidualOrthogonal(a: Vec3, b: Vec3, c: Vec3, w: Vec3, u: Vec3)
    requires Orthonormal(a, b, c)
    requires u == a || u == b || u == c
    ensures Dot(u, Sub(w, Add(Add(Scale(Dot(w, a), a), Scale(Dot(w, b), b)), Scale(Dot(w, c), c)))) == 0.0
  {
    var comb := Add(Add(Scale(Dot(w, a), a), Scale(Dot(w, b), b)), Scale(Dot(w, c), c));
    CoordinateOf(a, b, c, Dot(w, a), Dot(w, b), Dot(w, c), u);
    DotSymmetric(a, b);
    DotSymmetric(a, c);
    DotSymmetric(b, c);
    DotSymmetric(u, w);
    DotSymmetric(u, comb);
    assert Dot(u, Sub(w, comb)) == Dot(u, w) - Dot(u, comb);
  }

  /** A multiple k n of n = +-c that is orthogonal to the unit vector c is zero. */
  lemma ZeroResidual(n: Vec3, c: Vec3, r: Vec3)
    requires n == c || n == Neg(c)
    requires Dot(c, c) == 1.0
    requires r == Scale(Dot(n, r), n)
    requires Dot(r, c) == 0.0
    ensures r == Zero
  {
    var k := Dot(n, r);
    assert Dot(r, c) == k * Dot(n, c);
    if n == c {
      assert k == 0.0;
    } else {
      assert Dot(n, c) == -1.0;
      assert k == 0.0;
    }
  }

  /**
   * Parseval's identity over an orthonormal frame:
   * x . y = (a . x)(a . y) + (b . x)(b . y) + (c . x)(c . y).
   */
  lemma Parseval(a: Vec3, b: Vec3, c: Vec3, x: Vec3, y: Vec3)
    requires Orthonormal(a, b, c)
    ensures Dot(x, y) == Dot(a, x) * Dot(a, y) + Dot(b, x) * Dot(b, y) + Dot(c, x) * Dot(c, y)
  {
    Completeness(a, b, c, y);
    CoordinateOf(a, b, c, Dot(y, a), Dot(y, b), Dot(y, c), x);
    DotSymmetric(y, a);
    DotSymmetric(y, b);
    DotSymmetric(y, c);
    DotSymmetric(a, x);
    DotSymmetric(b, x);
    DotSymmetric(c, x);
  }

  // ---------------------------------------------------------------------
  // The matrix relating two frames
  // ---------------------------------------------------------------------

  /** Entry [j][i] of the frame matrix is a_i . b_j. */
  lemma FrameMatrixAt(a0: Vec3, a1: Vec3, a2: Vec3, b0: Vec3, b1: Vec3, b2: Vec3, j: nat, i: nat)
    requires j < 3 && i < 3
    ensures FrameMatrix(a0, a1, a2, b0, b1, b2)[j][i] == Dot(AxisAt(a0, a1, a2, i), AxisAt(b0, b1, b2, j))
  {
  }

  /** The dot product of rows m and i of R. */
  function RowDot(R: Mat3, m: nat, i: nat): real
    requires m < 3 && i < 3
  {
    Lin3(R[m][0], R[i][0], R[m][1], R[i][1], R[m][2], R[i][2])
  }

  /** The rows of R are orthogonal unit vectors. */
  predicate RowsOrthonormal(R: Mat3) {
    forall m, i :: 0 <= m < 3 && 0 <= i < 3 ==> RowDot(R, m, i) == if m == i then 1.0 else 0.0
  }

  /** The determinant e1 e2 - e3 e4. */
  function Det2(e1: real, e2: real, e3: real, e4: real): real {
    e1 * e2 - e3 * e4
  }

  /** The 2x2 minor of R on rows j, m and columns p, q. */
  function Minor(R: Mat3, p: nat, q: nat, j: nat, m: nat): real
    requires p < 3 && q < 3 && j < 3 && m < 3
  {
    Det2(R[m][q], R[j][p], R[m][p], R[j][q])
  }

  /** Every 2x2 minor equals the complementary entry up to sign, as for a rotation or a reflection. */
  predicate MinorsMatchEntries(R: Mat3) {
    forall p, q, j, m :: 0 <= p < 3 && 0 <= q < 3 && p != q && 0 <= j < 3 && 0 <= m < 3 && j != m ==>
      Abs(Minor(R, p, q, j, m)) == Abs(R[Third(j, m)][Third(p, q)])
  }

  /** An orthogonal matrix, described by the two properties the separating-axis test uses. */
  predicate Orthogonal(R: Mat3) {
    RowsOrthonormal(R) && MinorsMatchEntries(R)
  }

  /** Rows m and i of the frame matrix are b_m and b_i in a's coordinates, so their dot product is b_m . b_i. */
  lemma FrameRowDot(a0: Vec3, a1: Vec3, a2: Vec3, b0: Vec3, b1: Vec3, b2: Vec3, m: nat, i: nat)
    requires Orthonormal(a0, a1, a2)
    requires m < 3 && i < 3
    ensures RowDot(FrameMatrix(a0, a1, a2, b0, b1, b2), m, i) == Dot(AxisAt(b0, b1, b2, m), AxisAt(b0, b1, b2, i))
  {
    var bm, bi := AxisAt(b0, b1, b2, m), AxisAt(b0, b1, b2, i);
    Parseval(a0, a1, a2, bm, bi);
    var R := FrameMatrix(a0, a1, a2, b0, b1, b2);
    assert R[m][0] == Dot(a0, bm) && R[m][1] == Dot(a1, bm) && R[m][2] == Dot(a2, bm);
    assert R[i][0] == Dot(a0, bi) && R[i][1] == Dot(a1, bi) && R[i][2] == Dot(a2, bi);
  }

  /** The frame matrix's minor on rows j, m and columns p, q is the complementary entry up to sign. */
  lemma FrameMinor(a0: Vec3, a1: Vec3, a2: Vec3, b0: Vec3, b1: Vec3, b2: Vec3, p: nat, q: nat, j: nat, m: nat)
    requires Orthonormal(a0, a1, a2) && Orthonormal(b0, b1, b2)
    requires p < 3 && q < 3 && p != q && j < 3 && m < 3 && j != m
    ensures var R := FrameMatrix(a0, a1, a2, b0, b1, b2);
            Abs(Minor(R, p, q, j, m)) == Abs(R[Third(j, m)][Third(p, q)])
  {
    FrameMinorDots(a0, a1, a2, b0, b1, b2, p, q, j, m);
    OrthonormalPermuted(a0, a1, a2, q, p);
    OrthonormalPermuted(b0, b1, b2, m, j);
    assert Third(q, p) == Third(p, q) && Third(m, j) == Third(j, m);
    MinorOfAxes(AxisAt(a0, a1, a2, q), AxisAt(a0, a1, a2, p), AxisAt(a0, a1, a2, Third(p, q)),
                AxisAt(b0, b1, b2, m), AxisAt(b0, b1, b2, j), AxisAt(b0, b1, b2, Third(j, m)));
  }

  /** The minor and the complementary entry of the frame matrix, written with dot products of axes. */
  lemma FrameMinorDots(a0: Vec3, a1: Vec3, a2: Vec3, b0: Vec3, b1: Vec3, b2: Vec3, p: nat, q: nat, j: nat, m: nat)
    requires p < 3 && q < 3 && p != q && j < 3 && m < 3 && j != m
    ensures var R := FrameMatrix(a0, a1, a2, b0, b1, b2);
            var ap, aq, ai := AxisAt(a0, a1, a2, p), AxisAt(a0, a1, a2, q), AxisAt(a0, a1, a2, Third(p, q));
            var bj, bm, bn := AxisAt(b0, b1, b2, j), AxisAt(b0, b1, b2, m), AxisAt(b0, b1, b2, Third(j, m));
            Minor(R, p, q, j, m) == Det2(Dot(aq, bm), Dot(ap, bj), Dot(ap, bm), Dot(aq, bj)) &&
            R[Third(j, m)][Third(p, q)] == Dot(ai, bn)
  {
    var R := FrameMatrix(a0, a1, a2, b0, b1, b2);
    var ap, aq := AxisAt(a0, a1, a2, p), AxisAt(a0, a1, a2, q);
    var bj, bm := AxisAt(b0, b1, b2, j), AxisAt(b0, b1, b2, m);
    FrameMatrixAt(a0, a1, a2, b0, b1, b2, m, q);
    FrameMatrixAt(a0, a1, a2, b0, b1, b2, j, p);
    FrameMatrixAt(a0, a1, a2, b0, b1, b2, m, p);
    FrameMatrixAt(a0, a1, a2, b0, b1, b2, j, q);
    FrameMatrixAt(a0, a1, a2, b0, b1, b2, Third(j, m), Third(p, q));
  }

  /**
   * For orthonormal frames (aq, ap, ai) and (bm, bj, bn):
   * |(aq . bm)(ap . bj) - (ap . bm)(aq . bj)| = |ai . bn|.
   */
  lemma MinorOfAxes(aq: Vec3, ap: Vec3, ai: Vec3, bm: Vec3, bj: Vec3, bn: Vec3)
    requires Orthonormal(aq, ap, ai) && Orthonormal(bm, bj, bn)
    ensures Abs(Det2(Dot(aq, bm), Dot(ap, bj), Dot(ap, bm), Dot(aq, bj))) == Abs(Dot(ai, bn))
  {
    BinetCauchy(aq, ap, bm, bj);
    CrossIsThird(aq, ap, ai);
    CrossIsThird(bm, bj, bn);
    SignedDot(Cross(aq, ap), ai, Cross(bm, bj), bn);
  }

  /** If u = +-a and w = +-b then |u . w| = |a . b|. */
  lemma SignedDot(u: Vec3, a: Vec3, w: Vec3, b: Vec3)
    requires u == a || u == Neg(a)
    requires w == b || w == Neg(b)
    ensures Abs(Dot(u, w)) == Abs(Dot(a, b))
  {
    NegatedDot(a, b, Neg(a), b);
    NegatedDot(b, a, Neg(b), a);
    DotSymmetric(a, Neg(b));
    DotSymmetric(b, a);
    NegatedDot(a, Neg(b), Neg(a), Neg(b));
  }

  /** Turning the first factor round negates the dot product. */
  lemma NegatedDot(a: Vec3, b: Vec3, na: Vec3, b2: Vec3)
    requires na == Neg(a) && b2 == b
    ensures Dot(na, b2) == -Dot(a, b)
  {
    assert na.x * b.x == -(a.x * b.x) && na.y * b.y == -(a.y * b.y) && na.z * b.z == -(a.z * b.z);
  }

  /** The matrix relating two orthonormal frames is orthogonal. */
  lemma FrameMatrixOrthogonal(a0: Vec3, a1: Vec3, a2: Vec3, b0: Vec3, b1: Vec3, b2: Vec3)
    requires Orthonormal(a0, a1, a2) && Orthonormal(b0, b1, b2)
    ensures Orthogonal(FrameMatrix(a0, a1, a2, b0, b1, b2))
  {
    var R := FrameMatrix(a0, a1, a2, b0, b1, b2);
    forall m, i | 0 <= m < 3 && 0 <= i < 3
      ensures RowDot(R, m, i) == if m == i then 1.0 else 0.0
    {
      FrameRowDot(a0, a1, a2, b0, b1, b2, m, i);
      DotSymmetric(b0, b1);
      DotSymmetric(b0, b2);
      DotSymmetric(b1, b2);
    }
    forall p, q, j, m | 0 <= p < 3 && 0 <= q < 3 && p != q && 0 <= j < 3 && 0 <= m < 3 && j != m
      ensures Abs(Minor(R, p, q, j, m)) == Abs(R[Third(j, m)][Third(p, q)])
    {
      FrameMinor(a0, a1, a2, b0, b1, b2, p, q, j, m);
    }
  }
}
