/** The closed-form eigen-decomposition of a symmetric 2x2 matrix as
    calculateEigenvectors (planets/planet101/main.js) computes it. */
module Eigen {
  import opened Vectors
  import opened Statistics

  function Discriminant(m: Matrix2): real
  {
    Trace(m) * Trace(m) - 4.0 * Det(m)
  }

  /** For a symmetric matrix trace^2 - 4 det = (a - d)^2 + 4 b^2, hence never negative. */
  lemma DiscriminantIdentity(m: Matrix2)
    requires Symmetric(m)
    ensures Discriminant(m) == (m.a - m.d) * (m.a - m.d) + 4.0 * m.b * m.b
    ensures Discriminant(m) >= 0.0
  {
    SquareNonNeg(m.a - m.d);
    SquareNonNeg(m.b);
  }

  /** Eigenvalues in descending order and the two eigenvector directions. */
  datatype EigenPairs = EigenPairs(lambda1: real, lambda2: real, v1: Vec2, v2: Vec2)

  /** The first eigenvector as calculateEigenvectors builds it: (1, (lambda - a) / b)
      normalised when b != 0, and (1, 0) when b == 0 whatever the diagonal. */
  function FirstEigenvector(sqrt: real -> real, m: Matrix2, ev: real): Vec2
    requires IsSqrt(sqrt)
  {
    if m.b != 0.0 then UnitDirectionOf(sqrt, (ev - m.a) / m.b) else Vec2(1.0, 0.0)
  }

  /** (1, t) divided by its length sqrt(1 + t^2). */
  function UnitDirectionOf(sqrt: real -> real, t: real): Vec2
    requires IsSqrt(sqrt)
  {
    SquareNonNeg(t);
    SqrtAt(sqrt, 1.0 + t * t);
    var n := sqrt(1.0 + t * t);
    Vec2(1.0 / n, t / n)
  }

  /** Both branches of the first vector have length one. */
  lemma FirstEigenvectorUnit(sqrt: real -> real, m: Matrix2, ev: real)
    requires IsSqrt(sqrt)
    ensures NormSq(FirstEigenvector(sqrt, m, ev)) == 1.0
  {
    if m.b != 0.0 {
      UnitDirection(sqrt, (ev - m.a) / m.b);
    }
  }

  /** (1, t) divided by its norm has length one. */
  lemma UnitDirection(sqrt: real -> real, t: real)
    requires IsSqrt(sqrt)
    ensures sqrt(1.0 + t * t) > 0.0
    ensures NormSq(UnitDirectionOf(sqrt, t)) == 1.0
  {
    var n := sqrt(1.0 + t * t);
    SquareNonNeg(t);
    SqrtAt(sqrt, 1.0 + t * t);
    assert n > 0.0;
    var u := UnitDirectionOf(sqrt, t);
    assert u.x * n == 1.0 && u.y * n == t;
    assert (u.x * u.x + u.y * u.y) * (n * n) == (u.x * n) * (u.x * n) + (u.y * n) * (u.y * n);
    MulPos(n, n);
  }

  /** Math.sqrt of the discriminant; the discriminant of a symmetric matrix is never negative. */
  function Root(sqrt: real -> real, m: Matrix2): (r: real)
    requires IsSqrt(sqrt) && Symmetric(m)
    ensures r >= 0.0
  {
    DiscriminantIdentity(m);
    SqrtAt(sqrt, Discriminant(m));
    sqrt(Discriminant(m))
  }

  lemma RootSquared(sqrt: real -> real, m: Matrix2)
    requires IsSqrt(sqrt) && Symmetric(m)
    ensures Root(sqrt, m) * Root(sqrt, m) == Discriminant(m)
  {
    DiscriminantIdentity(m);
    SqrtAt(sqrt, Discriminant(m));
  }

  function Lambda1(sqrt: real -> real, m: Matrix2): real
    requires IsSqrt(sqrt) && Symmetric(m)
  {
    (Trace(m) + Root(sqrt, m)) / 2.0
  }

  function Lambda2(sqrt: real -> real, m: Matrix2): real
    requires IsSqrt(sqrt) && Symmetric(m)
  {
    (Trace(m) - Root(sqrt, m)) / 2.0
  }

  /** calculateEigenvectors: trace, determinant, square root of the discriminant,
      lambda = (trace +- root) / 2, then the first vector and its 90-degree rotation. */
  function Decompose(sqrt: real -> real, m: Matrix2): (e: EigenPairs)
    requires IsSqrt(sqrt)
    requires Symmetric(m)
    ensures e.lambda1 >= e.lambda2
    ensures e.lambda1 == Lambda1(sqrt, m) && e.lambda2 == Lambda2(sqrt, m)
    ensures e.lambda1 + e.lambda2 == Trace(m)
  {
    var v1 := FirstEigenvector(sqrt, m, Lambda1(sqrt, m));
    EigenPairs(Lambda1(sqrt, m), Lambda2(sqrt, m), v1, Rotate90(v1))
  }

  /** The two vectors are an orthonormal pair. */
  lemma DecomposeOrthonormal(sqrt: real -> real, m: Matrix2)
    requires IsSqrt(sqrt) && Symmetric(m)
    ensures var e := Decompose(sqrt, m);
      NormSq(e.v1) == 1.0 && NormSq(e.v2) == 1.0 && Dot(e.v1, e.v2) == 0.0
  {
    var e := Decompose(sqrt, m);
    FirstEigenvectorUnit(sqrt, m, Lambda1(sqrt, m));
    RotatePerpendicular(e.v1);
  }

  /** Both eigenvalues are roots of the characteristic polynomial x^2 - trace x + det. */
  lemma CharacteristicEquation(sqrt: real -> real, m: Matrix2)
    requires IsSqrt(sqrt) && Symmetric(m)
    ensures var e := Decompose(sqrt, m);
      && e.lambda1 * e.lambda1 - Trace(m) * e.lambda1 + Det(m) == 0.0
      && e.lambda2 * e.lambda2 - Trace(m) * e.lambda2 + Det(m) == 0.0
      && e.lambda1 * e.lambda2 == Det(m)
  {
    var t, d := Trace(m), Det(m);
    var s := Root(sqrt, m);
    RootSquared(sqrt, m);
    assert s * s == t * t - 4.0 * d;
    var l1, l2 := (t + s) / 2.0, (t - s) / 2.0;
    assert l1 * l1 == (t * t + 2.0 * t * s + s * s) / 4.0;
    assert t * l1 == (t * t + t * s) / 2.0;
    assert l2 * l2 == (t * t - 2.0 * t * s + s * s) / 4.0;
    assert t * l2 == (t * t - t * s) / 2.0;
    assert l1 * l2 == (t * t - s * s) / 4.0;
  }

  /** The unnormalised direction (1, (lambda - a) / b) is an eigenvector for each root lambda. */
  lemma DirectionIsEigenvector(m: Matrix2, ev: real)
    requires Symmetric(m) && m.b != 0.0
    requires ev * ev - Trace(m) * ev + Det(m) == 0.0
    ensures MulVec(m, Vec2(1.0, (ev - m.a) / m.b)) == Scale(ev, Vec2(1.0, (ev - m.a) / m.b))
  {
    var a, b, d := m.a, m.b, m.d;
    var t := (ev - a) / b;
    assert b * t == ev - a;
    // second row: b + d t == lambda t, because b^2 == (lambda - a)(lambda - d)
    assert (ev - a) * (ev - d) == b * b;
    assert b * (b + d * t) == b * (ev * t) by {
      assert b * (b + d * t) == b * b + d * (b * t);
      assert b * (ev * t) == ev * (b * t);
    }
    assert b + d * t == ev * t;
  }

  /** Scaling commutes with the matrix product. */
  lemma MulVecScale(m: Matrix2, k: real, v: Vec2)
    ensures MulVec(m, Scale(k, v)) == Scale(k, MulVec(m, v))
  {
    assert m.a * (k * v.x) + m.b * (k * v.y) == k * (m.a * v.x + m.b * v.y);
    assert m.c * (k * v.x) + m.d * (k * v.y) == k * (m.c * v.x + m.d * v.y);
  }

  /** For a root lambda and b != 0 the normalised first vector is an eigenvector for lambda. */
  lemma NormalisedDirectionIsEigenvector(sqrt: real -> real, m: Matrix2, ev: real)
    requires IsSqrt(sqrt) && Symmetric(m) && m.b != 0.0
    requires ev * ev - Trace(m) * ev + Det(m) == 0.0
    ensures MulVec(m, FirstEigenvector(sqrt, m, ev)) == Scale(ev, FirstEigenvector(sqrt, m, ev))
  {
    var t := (ev - m.a) / m.b;
    var u := Vec2(1.0, t);
    DirectionIsEigenvector(m, ev);
    UnitDirection(sqrt, t);
    var n := sqrt(1.0 + t * t);
    var q := 1.0 / n;
    var v := FirstEigenvector(sqrt, m, ev);
    assert v == UnitDirectionOf(sqrt, t) == Vec2(1.0 / n, t / n);
    assert v == Scale(q, u) by {
      assert 1.0 / n == q * 1.0;
      assert t / n == q * t;
    }
    MulVecScale(m, q, u);
    assert Scale(q, Scale(ev, u)) == Scale(ev, Scale(q, u)) by {
      assert q * (ev * u.x) == ev * (q * u.x);
      assert q * (ev * u.y) == ev * (q * u.y);
    }
  }

  /** When b != 0 the first vector is a unit eigenvector of the larger eigenvalue. */
  lemma FirstEigenvectorEquation(sqrt: real -> real, m: Matrix2)
    requires IsSqrt(sqrt) && Symmetric(m) && m.b != 0.0
    ensures var e := Decompose(sqrt, m);
      MulVec(m, e.v1) == Scale(e.lambda1, e.v1) && NormSq(e.v1) == 1.0
  {
    var e := Decompose(sqrt, m);
    CharacteristicEquation(sqrt, m);
    assert e.v1 == FirstEigenvector(sqrt, m, e.lambda1);
    NormalisedDirectionIsEigenvector(sqrt, m, e.lambda1);
    FirstEigenvectorUnit(sqrt, m, e.lambda1);
  }

  /** The second vector is a unit eigenvector of the smaller eigenvalue when b != 0. */
  lemma SecondEigenvectorEquation(sqrt: real -> real, m: Matrix2)
    requires IsSqrt(sqrt) && Symmetric(m) && m.b != 0.0
    ensures var e := Decompose(sqrt, m);
      MulVec(m, e.v2) == Scale(e.lambda2, e.v2)
  {
    var e := Decompose(sqrt, m);
    FirstEigenvectorEquation(sqrt, m);
    RotatedEigenvector(m, e.v1, e.lambda1, e.lambda2);
  }

  /** For a symmetric matrix, rotating an eigenvector of one eigenvalue by 90 degrees
      gives an eigenvector of the other (their sum is the trace). */
  lemma RotatedEigenvector(m: Matrix2, v: Vec2, l1: real, l2: real)
    requires Symmetric(m) && l1 + l2 == Trace(m)
    requires MulVec(m, v) == Scale(l1, v)
    ensures MulVec(m, Rotate90(v)) == Scale(l2, Rotate90(v))
  {
    var x, y := v.x, v.y;
    var a, b, d := m.a, m.b, m.d;
    assert a * x + b * y == l1 * x && b * x + d * y == l1 * y;
    assert l2 == a + d - l1;
    // MulVec(m, (-y, x)) = (-a y + b x, -b y + d x); substitute the row equations.
    assert l2 * y == a * y + d * y - l1 * y;
    assert l2 * x == a * x + d * x - l1 * x;
    assert a * -y + b * x == l2 * -y;
    assert m.c * -y + d * x == l2 * x;
    assert MulVec(m, Rotate90(v)) == Vec2(a * -y + b * x, m.c * -y + d * x);
  }

  /** The degenerate branch: with b == 0 the first vector is (1, 0) whatever the diagonal. */
  lemma DiagonalFirstVector(sqrt: real -> real, m: Matrix2)
    requires IsSqrt(sqrt) && Symmetric(m) && m.b == 0.0
    ensures Decompose(sqrt, m).v1 == Vec2(1.0, 0.0)
    ensures Decompose(sqrt, m).v2 == Vec2(0.0, 1.0)
  {
  }

  /** With b == 0 and a >= d the eigenvalues are a then d, and (1, 0) belongs to a. */
  lemma DiagonalOrdered(sqrt: real -> real, m: Matrix2)
    requires IsSqrt(sqrt) && Symmetric(m) && m.b == 0.0 && m.a >= m.d
    ensures Decompose(sqrt, m).lambda1 == m.a && Decompose(sqrt, m).lambda2 == m.d
    ensures MulVec(m, Vec2(1.0, 0.0)) == Scale(m.a, Vec2(1.0, 0.0))
  {
    DiagonalRoot(sqrt, m, m.a - m.d);
  }

  /** With b == 0 and d > a the eigenvalues are d then a, yet the first vector is still (1, 0),
      the eigenvector of the SMALLER eigenvalue a and not of lambda1: the first principal
      axis drawn is the wrong one. */
  lemma DiagonalSwapped(sqrt: real -> real, m: Matrix2)
    requires IsSqrt(sqrt) && Symmetric(m) && m.b == 0.0 && m.d > m.a
    ensures Decompose(sqrt, m).lambda1 == m.d && Decompose(sqrt, m).lambda2 == m.a
    ensures MulVec(m, Vec2(1.0, 0.0)) == Scale(m.a, Vec2(1.0, 0.0))
    ensures MulVec(m, Vec2(1.0, 0.0)) != Scale(m.d, Vec2(1.0, 0.0))
  {
    DiagonalRoot(sqrt, m, m.d - m.a);
  }

  /** With b == 0 the root of the discriminant is |a - d|. */
  lemma DiagonalRoot(sqrt: real -> real, m: Matrix2, g: real)
    requires IsSqrt(sqrt) && Symmetric(m) && m.b == 0.0
    requires g == m.a - m.d || g == m.d - m.a
    requires g >= 0.0
    ensures Root(sqrt, m) == g
  {
    DiscriminantIdentity(m);
    assert g * g == (m.a - m.d) * (m.a - m.d);
    assert 4.0 * m.b * m.b == 0.0;
    SqrtUnique(sqrt, Discriminant(m), g);
  }

  /** A positive semidefinite matrix has two non-negative eigenvalues. */
  lemma EigenvaluesNonNegative(sqrt: real -> real, m: Matrix2)
    requires IsSqrt(sqrt) && PositiveSemidefinite(m)
    ensures Decompose(sqrt, m).lambda2 >= 0.0
  {
    var t := Trace(m);
    var s := Root(sqrt, m);
    RootSquared(sqrt, m);
    assert s * s == t * t - 4.0 * Det(m) <= t * t;
    SquareMonotone(t, s);
  }

  /** What the experiment keeps about a finished decomposition: ordered non-negative
      eigenvalues and an orthonormal pair whose second vector is the rotated first. */
  predicate EigenInvariant(e: EigenPairs)
  {
    e.lambda1 >= e.lambda2 >= 0.0 && NormSq(e.v1) == 1.0 && e.v2 == Rotate90(e.v1)
  }

  lemma DecomposeKeepsInvariant(sqrt: real -> real, m: Matrix2)
    requires IsSqrt(sqrt) && PositiveSemidefinite(m)
    ensures EigenInvariant(Decompose(sqrt, m))
  {
    EigenvaluesNonNegative(sqrt, m);
    DecomposeOrthonormal(sqrt, m);
  }

}
