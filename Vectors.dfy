// Three-component real vectors and 3x3 matrices, the glm subset the
// collision kernel uses. Floating-point rounding is not modelled: every
// GLfloat of the engine is a real here.
module Vectors {

  datatype Vec3 = Vec3(x: real, y: real, z: real)

  datatype Option<T> = None | Some(value: T)

  /** GeometryUtils::epsilon, 1e-5f in the engine's header. */
  const Epsilon: real := 0.00001

  const Zero: Vec3 := Vec3(0.0, 0.0, 0.0)
  const UnitX: Vec3 := Vec3(1.0, 0.0, 0.0)
  const UnitY: Vec3 := Vec3(0.0, 1.0, 0.0)
  const UnitZ: Vec3 := Vec3(0.0, 0.0, 1.0)

  function Add(a: Vec3, b: Vec3): Vec3 { Vec3(a.x + b.x, a.y + b.y, a.z + b.z) }

  function Sub(a: Vec3, b: Vec3): Vec3 { Vec3(a.x - b.x, a.y - b.y, a.z - b.z) }

  function Neg(a: Vec3): Vec3 { Vec3(-a.x, -a.y, -a.z) }

  /** Scalar times vector (glm's `k * v` and `v * k`). */
  function Scale(k: real, a: Vec3): Vec3 { Vec3(k * a.x, k * a.y, k * a.z) }

  /** Componentwise product (glm's `v * w`). */
  function Mul(a: Vec3, b: Vec3): Vec3 { Vec3(a.x * b.x, a.y * b.y, a.z * b.z) }

  /** glm's `v / k`. */
  function Div(a: Vec3, k: real): Vec3
    requires k != 0.0
  {
    Vec3(a.x / k, a.y / k, a.z / k)
  }

  /** The vector (r, r, r). */
  function Splat(r: real): Vec3 { Vec3(r, r, r) }

  function Dot(a: Vec3, b: Vec3): real { a.x * b.x + a.y * b.y + a.z * b.z }

  function Cross(a: Vec3, b: Vec3): Vec3 {
    Vec3(a.y * b.z - a.z * b.y, a.z * b.x - a.x * b.z, a.x * b.y - a.y * b.x)
  }

  function Square(x: real): real { x * x }

  /** a x + b y. */
  function Lin2(a: real, x: real, b: real, y: real): real {
    a * x + b * y
  }

  /** a x + b y + c z. */
  function Lin3(a: real, x: real, b: real, y: real, c: real, z: real): real {
    a * x + b * y + c * z
  }

  /** Squared length, `dot(v, v)`. */
  function LengthSq(v: Vec3): real { Dot(v, v) }

  /** Squared distance between two points, `dot(b - a, b - a)`. */
  function DistSq(a: Vec3, b: Vec3): real { LengthSq(Sub(b, a)) }

  function Abs(r: real): (a: real)
    ensures a >= 0.0 && (a == r || a == -r)
  {
    if r < 0.0 then -r else r
  }

  /** glm::abs on a vector. */
  function AbsVec(v: Vec3): Vec3 { Vec3(Abs(v.x), Abs(v.y), Abs(v.z)) }

  function Max(a: real, b: real): (m: real)
    ensures m >= a && m >= b && (m == a || m == b)
  {
    if a < b then b else a
  }

  /** glm::clamp(x, lo, hi) = min(max(x, lo), hi). */
  function Clamp(x: real, lo: real, hi: real): (r: real)
    requires lo <= hi
    ensures lo <= r <= hi
    ensures lo <= x <= hi ==> r == x
    ensures x < lo ==> r == lo
    ensures x > hi ==> r == hi
  {
    if x < lo then lo else if x > hi then hi else x
  }

  /** Component i of v, glm's `v[i]`. */
  function At(v: Vec3, i: nat): real
    requires i < 3
  {
    if i == 0 then v.x else if i == 1 then v.y else v.z
  }

  /** v with component i replaced by r, glm's `v[i] = r`. */
  function SetAt(v: Vec3, i: nat, r: real): (w: Vec3)
    requires i < 3
    ensures At(w, i) == r
    ensures forall k :: 0 <= k < 3 && k != i ==> At(w, k) == At(v, k)
  {
    if i == 0 then Vec3(r, v.y, v.z) else if i == 1 then Vec3(v.x, r, v.z) else Vec3(v.x, v.y, r)
  }

  /** The point start + t * (end - start). */
  function PointAt(start: Vec3, end: Vec3, t: real): Vec3 {
    Add(start, Scale(t, Sub(end, start)))
  }

  /**
   * A glm mat3 is stored column-major: m[c][r] is column c, row r.
   * Kept as nested sequences so that every `R[a][b]` of the engine can
   * be transcribed with its indices in the order written.
   */
  type Mat3 = m: seq<seq<real>> | |m| == 3 && |m[0]| == 3 && |m[1]| == 3 && |m[2]| == 3
    witness [[0.0, 0.0, 0.0], [0.0, 0.0, 0.0], [0.0, 0.0, 0.0]]

  /** glm's `M * v`: row r of the result is the sum over columns c of M[c][r] * v[c]. */
  function MulVec(m: Mat3, v: Vec3): Vec3 {
    Vec3(m[0][0] * v.x + m[1][0] * v.y + m[2][0] * v.z,
         m[0][1] * v.x + m[1][1] * v.y + m[2][1] * v.z,
         m[0][2] * v.x + m[1][2] * v.y + m[2][2] * v.z)
  }

  /** The matrix whose column c is column(c) (glm's mat3(c0, c1, c2)). */
  function FromColumns(c0: Vec3, c1: Vec3, c2: Vec3): Mat3 {
    [[c0.x, c0.y, c0.z], [c1.x, c1.y, c1.z], [c2.x, c2.y, c2.z]]
  }

  /** A square-root function on the non-negative reals (glm::length, sqrt). */
  ghost predicate IsSqrt(sqrt: real -> real) {
    forall x: real {:trigger sqrt(x)} :: 0.0 <= x ==> 0.0 <= sqrt(x) && sqrt(x) * sqrt(x) == x
  }

  /** Three mutually orthogonal unit vectors. */
  predicate Orthonormal(a0: Vec3, a1: Vec3, a2: Vec3) {
    Dot(a0, a0) == 1.0 && Dot(a1, a1) == 1.0 && Dot(a2, a2) == 1.0 &&
    Dot(a0, a1) == 0.0 && Dot(a0, a2) == 0.0 && Dot(a1, a2) == 0.0
  }

  lemma DotSymmetric(u: Vec3, v: Vec3)
    ensures Dot(u, v) == Dot(v, u)
  {
  }

  /** Lagrange's identity: |a x b|^2 = |a|^2 |b|^2 - (a . b)^2. */
  lemma Lagrange(a: Vec3, b: Vec3)
    ensures Dot(Cross(a, b), Cross(a, b)) == Dot(a, a) * Dot(b, b) - Dot(a, b) * Dot(a, b)
  {
  }

  /** If (p - q) . (x - q) <= 0, then q is at least as close to p as x. */
  lemma ObtuseIsCloser(p: Vec3, q: Vec3, x: Vec3)
    requires Dot(Sub(p, q), Sub(x, q)) <= 0.0
    ensures DistSq(p, q) <= DistSq(p, x)
  {
    var u, w := Sub(p, q), Sub(x, q);
    assert Sub(x, p) == Sub(w, u);
    assert LengthSq(Sub(w, u)) == LengthSq(u) - 2.0 * Dot(u, w) + LengthSq(w);
    LengthSqNonNegative(w);
    assert Sub(q, p) == Neg(u);
  }

  lemma LengthSqNonNegative(v: Vec3)
    ensures LengthSq(v) >= 0.0
  {
    assert v.x * v.x >= 0.0 && v.y * v.y >= 0.0 && v.z * v.z >= 0.0;
  }

  /** Only the zero vector has squared length 0. */
  lemma LengthSqPositive(v: Vec3)
    requires v != Zero
    ensures LengthSq(v) > 0.0
  {
    DotSelfPositive(v, v);
  }

  // The two vectors are equal but named apart, so that each product below
  // has two distinct factors; the solver's sign rules apply to those.
  lemma DotSelfPositive(v: Vec3, w: Vec3)
    requires v == w && v != Zero
    ensures Dot(v, w) > 0.0
  {
    var px, py, pz := v.x * w.x, v.y * w.y, v.z * w.z;
    assert Dot(v, w) == px + py + pz;
    assert px >= 0.0 && py >= 0.0 && pz >= 0.0;
    assert px > 0.0 || py > 0.0 || pz > 0.0 by {
      if v.x != 0.0 {
        ProductPositive(v.x, w.x);
      } else if v.y != 0.0 {
        ProductPositive(v.y, w.y);
      } else {
        ProductPositive(v.z, w.z);
      }
    }
  }

  lemma ProductPositive(a: real, b: real)
    requires a == b && a != 0.0
    ensures a * b > 0.0
  {
    if a > 0.0 {
      assert a * b > 0.0;
    } else {
      assert a * b > 0.0;
    }
  }

  /** The unique non-negative square root: s >= 0 and s*s == x fixes s. */
  lemma SqrtUnique(s1: real, s2: real)
    requires s1 >= 0.0 && s2 >= 0.0 && s1 * s1 == s2 * s2
    ensures s1 == s2
  {
    assert (s1 - s2) * (s1 + s2) == 0.0;
    if s1 + s2 > 0.0 {
      assert s1 - s2 == ((s1 - s2) * (s1 + s2)) / (s1 + s2);
    }
  }

  lemma MulNonNegative(x: real, y: real)
    requires x >= 0.0 && y >= 0.0
    ensures x * y >= 0.0
  {
  }

  lemma MulPositive(x: real, y: real)
    requires x > 0.0 && y > 0.0
    ensures x * y > 0.0
  {
  }

  lemma MulNonPositive(x: real, y: real)
    requires x <= 0.0 && y <= 0.0
    ensures x * y >= 0.0
  {
  }

  /** |x r| = |x| |r|. */
  lemma AbsProduct(x: real, r: real)
    ensures Abs(x * r) == Abs(x) * Abs(r)
  {
    if x >= 0.0 && r < 0.0 {
      assert x * r == -(x * -r);
      MulNonNegative(x, -r);
    } else if x < 0.0 && r >= 0.0 {
      assert x * r == -(-x * r);
      MulNonNegative(-x, r);
    } else if x < 0.0 {
      assert x * r == -x * -r;
      MulNonNegative(-x, -r);
    } else {
      MulNonNegative(x, r);
    }
  }

  /** Squaring is monotone on the non-negative reals. */
  lemma SquareMonotone(s: real, k: real)
    requires 0.0 <= s <= k
    ensures s * s <= k * k
  {
    MulNonNegative(s, k - s);
    MulNonNegative(k, k - s);
    assert s * (k - s) == s * k - s * s;
    assert k * (k - s) == k * k - s * k;
  }

  lemma SquareStrictMonotone(k: real, s: real)
    requires 0.0 <= k < s
    ensures k * k < s * s
  {
    var d := (s - k) * (s + k);
    MulPositive(s - k, s + k);
    assert d == s * s - k * k;
  }

  /**
   * A comparison `length(v) + a <= b` of the engine, given any root s of
   * |v|^2, is the squared comparison that the model states without sqrt.
   */
  lemma {:induction false} LengthLeIffSquared(s: real, lenSq: real, a: real, b: real)
    requires s >= 0.0 && s * s == lenSq
    ensures s + a <= b <==> (b - a >= 0.0 && lenSq <= (b - a) * (b - a))
  {
    var k := b - a;
    if s <= k {
      SquareMonotone(s, k);
    } else if k >= 0.0 {
      SquareStrictMonotone(k, s);
    }
  }
}
