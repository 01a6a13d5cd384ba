/** The statistics of the 2-D PCA walkthrough (planets/planet101/main.js):
    clicked points, their mean, centring and the unbiased covariance matrix. */
module Statistics {
  import opened Vectors

  /** A clicked point; the id is the opaque number the widget draws from the clock. */
  datatype Point = Point(x: real, y: real, id: real)

  function Pos(p: Point): Vec2 { Vec2(p.x, p.y) }

  /** A stage result cached by the experiment: not computed, computed, or computed through
      a division by zero, which leaves NaN / Infinity entries in the JavaScript arrays. */
  datatype Derived<T> = Absent | Finite(value: T) | NonFinite

  // ---------- sums over a point list, accumulated front to back as the loops do ----------

  function SumX(ps: seq<Point>): real
  {
    if ps == [] then 0.0 else SumX(ps[..|ps| - 1]) + ps[|ps| - 1].x
  }

  function SumY(ps: seq<Point>): real
  {
    if ps == [] then 0.0 else SumY(ps[..|ps| - 1]) + ps[|ps| - 1].y
  }

  function SumXX(ps: seq<Point>): (r: real)
    ensures r >= 0.0
  {
    if ps == [] then 0.0
    else
      var p := ps[|ps| - 1];
      SquareNonNeg(p.x);
      SumXX(ps[..|ps| - 1]) + p.x * p.x
  }

  function SumYY(ps: seq<Point>): (r: real)
    ensures r >= 0.0
  {
    if ps == [] then 0.0
    else
      var p := ps[|ps| - 1];
      SquareNonNeg(p.y);
      SumYY(ps[..|ps| - 1]) + p.y * p.y
  }

  function SumXY(ps: seq<Point>): real
  {
    if ps == [] then 0.0 else SumXY(ps[..|ps| - 1]) + ps[|ps| - 1].x * ps[|ps| - 1].y
  }

  // ---------- mean and centring ----------

  /** calculateMean's value: (sum of x / n, sum of y / n). */
  function MeanOf(ps: seq<Point>): Vec2
    requires |ps| > 0
  {
    Vec2(SumX(ps) / |ps| as real, SumY(ps) / |ps| as real)
  }

  /** The mean of a single point is that point. */
  lemma MeanOfSingle(p: Point)
    ensures MeanOf([p]) == Pos(p)
  {
    assert [p][..0] == [];
    assert SumX([p]) == p.x && SumY([p]) == p.y;
    assert |[p]| as real == 1.0;
  }

  /** centerData's map: each point minus the mean, same order, same id. */
  function Center(ps: seq<Point>, m: Vec2): (cs: seq<Point>)
    ensures |cs| == |ps|
    ensures forall i :: 0 <= i < |ps| ==>
              cs[i].id == ps[i].id && Pos(cs[i]) == Sub(Pos(ps[i]), m)
  {
    seq(|ps|, i requires 0 <= i < |ps| => Point(ps[i].x - m.x, ps[i].y - m.y, ps[i].id))
  }

  /** Shifting every point by m shifts the coordinate sums by n * m. */
  lemma {:induction false} CenterSums(ps: seq<Point>, m: Vec2)
    ensures SumX(Center(ps, m)) == SumX(ps) - |ps| as real * m.x
    ensures SumY(Center(ps, m)) == SumY(ps) - |ps| as real * m.y
  {
    if ps != [] {
      var n := |ps|;
      var init := ps[..n - 1];
      assert Center(ps, m)[..n - 1] == Center(init, m);
      CenterSums(init, m);
      assert (n - 1) as real * m.x + m.x == n as real * m.x;
      assert (n - 1) as real * m.y + m.y == n as real * m.y;
    }
  }

  /** The centred points sum to (0, 0): their mean is the origin. */
  lemma CenteredSumsToZero(ps: seq<Point>)
    requires |ps| > 0
    ensures SumX(Center(ps, MeanOf(ps))) == 0.0
    ensures SumY(Center(ps, MeanOf(ps))) == 0.0
    ensures MeanOf(Center(ps, MeanOf(ps))) == Vec2(0.0, 0.0)
  {
    var m := MeanOf(ps);
    var n := |ps| as real;
    CenterSums(ps, m);
    assert n * (SumX(ps) / n) == SumX(ps);
    assert n * (SumY(ps) / n) == SumY(ps);
  }

  // ---------- covariance ----------

  /** A 2x2 matrix [[a, b], [c, d]], stored as the widget's nested array. */
  datatype Matrix2 = Matrix2(a: real, b: real, c: real, d: real)

  predicate Symmetric(m: Matrix2) { m.b == m.c }

  function Trace(m: Matrix2): real { m.a + m.d }

  function Det(m: Matrix2): real { m.a * m.d - m.b * m.c }

  /** Symmetric with non-negative diagonal and determinant: a covariance matrix. */
  predicate PositiveSemidefinite(m: Matrix2)
  {
    Symmetric(m) && m.a >= 0.0 && m.d >= 0.0 && Det(m) >= 0.0
  }

  function MulVec(m: Matrix2, v: Vec2): Vec2
  {
    Vec2(m.a * v.x + m.b * v.y, m.c * v.x + m.d * v.y)
  }

  /** For a fixed (u, v) the sum of (u*y - v*x)^2 over the points, expanded. */
  lemma {:induction false} CrossTermNonNegative(ps: seq<Point>, u: real, v: real)
    ensures u * u * SumYY(ps) + v * v * SumXX(ps) - 2.0 * u * v * SumXY(ps) >= 0.0
  {
    if ps != [] {
      var init := ps[..|ps| - 1];
      var p := ps[|ps| - 1];
      CrossTermNonNegative(init, u, v);
      var w := u * p.y - v * p.x;
      SquareNonNeg(w);
      assert w * w == u * u * (p.y * p.y) + v * v * (p.x * p.x) - 2.0 * u * v * (p.x * p.y);
      assert u * u * SumYY(ps) == u * u * SumYY(init) + u * u * (p.y * p.y);
      assert v * v * SumXX(ps) == v * v * SumXX(init) + v * v * (p.x * p.x);
      assert 2.0 * u * v * SumXY(ps) == 2.0 * u * v * SumXY(init) + 2.0 * u * v * (p.x * p.y);
    }
  }

  /** Cauchy-Schwarz for the coordinate columns: (sum xy)^2 <= (sum xx) (sum yy). */
  lemma {:induction false} CauchySchwarz(ps: seq<Point>)
    ensures SumXY(ps) * SumXY(ps) <= SumXX(ps) * SumYY(ps)
  {
    if ps != [] {
      var init := ps[..|ps| - 1];
      var p := ps[|ps| - 1];
      CauchySchwarz(init);
      CrossTermNonNegative(init, p.x, p.y);
      var s, t, q := SumXX(init), SumYY(init), SumXY(init);
      var u, v := p.x, p.y;
      assert (s + u * u) * (t + v * v) - (q + u * v) * (q + u * v)
          == (s * t - q * q) + (u * u * t + v * v * s - 2.0 * u * v * q);
    }
  }

  /** Dividing every entry by k > 0 keeps the determinant's sign. */
  lemma ScaledDeterminant(sxx: real, sxy: real, syy: real, k: real)
    requires k > 0.0
    requires sxy * sxy <= sxx * syy
    ensures (sxx / k) * (syy / k) - (sxy / k) * (sxy / k) >= 0.0
  {
    var q := 1.0 / k;
    assert sxx / k == sxx * q && syy / k == syy * q && sxy / k == sxy * q;
    assert (sxx * q) * (syy * q) - (sxy * q) * (sxy * q) == (sxx * syy - sxy * sxy) * (q * q);
    SquareNonNeg(q);
    MulNonNeg(sxx * syy - sxy * sxy, q * q);
  }

  /** calculateCovariance's matrix for n >= 2 centred points, unbiased (divides by n - 1):
      symmetric, non-negative variances, non-negative determinant. */
  function Covariance(cs: seq<Point>): (m: Matrix2)
    requires |cs| >= 2
    ensures PositiveSemidefinite(m)
  {
    var k := (|cs| - 1) as real;
    CauchySchwarz(cs);
    ScaledDeterminant(SumXX(cs), SumXY(cs), SumYY(cs), k);
    Matrix2(SumXX(cs) / k, SumXY(cs) / k, SumXY(cs) / k, SumYY(cs) / k)
  }

}
