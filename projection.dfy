/** Projection onto the first principal axis, reconstruction and the explained-variance
    share shown by the 2-D PCA walkthrough (planets/planet101/main.js). */
module Projections {
  import opened Vectors
  import opened Statistics
  import opened Eigen

  datatype Projection = Projection(original: Point, coefficient: real, reconstructed: Vec2)

  /** projectAndReconstruct's map: coefficient = p . v, reconstructed = coefficient * v. */
  function Project(cs: seq<Point>, v: Vec2): (ps: seq<Projection>)
    ensures |ps| == |cs|
    ensures forall i :: 0 <= i < |cs| ==>
              ps[i].original == cs[i] && ps[i].reconstructed == Scale(ps[i].coefficient, v)
  {
    seq(|cs|, i requires 0 <= i < |cs| =>
      var c := Dot(Pos(cs[i]), v);
      Projection(cs[i], c, Scale(c, v)))
  }

  /** Against a unit vector the reconstruction error is perpendicular to the axis. */
  lemma ResidualOrthogonal(p: Vec2, v: Vec2)
    requires NormSq(v) == 1.0
    ensures Dot(Sub(p, Scale(Dot(p, v), v)), v) == 0.0
  {
    var c := Dot(p, v);
    assert Dot(Sub(p, Scale(c, v)), v) == c - c * NormSq(v);
  }

  /** Every projection of a list onto a unit axis has a residual perpendicular to it,
      and its coefficient is the dot product with that axis. */
  lemma ProjectionResiduals(cs: seq<Point>, v: Vec2)
    requires NormSq(v) == 1.0
    ensures forall i :: 0 <= i < |cs| ==>
      && Project(cs, v)[i].coefficient == Dot(Pos(cs[i]), v)
      && Dot(Sub(Pos(cs[i]), Project(cs, v)[i].reconstructed), v) == 0.0
  {
    forall i | 0 <= i < |cs|
      ensures Dot(Sub(Pos(cs[i]), Project(cs, v)[i].reconstructed), v) == 0.0
    {
      ResidualOrthogonal(Pos(cs[i]), v);
    }
  }

  /** With both axes of an orthonormal pair the reconstruction is exact: the residual
      of the one-axis reconstruction is the component along the rotated axis. */
  lemma TwoAxisReconstruction(p: Vec2, v: Vec2)
    requires NormSq(v) == 1.0
    ensures Add(Scale(Dot(p, v), v), Scale(Dot(p, Rotate90(v)), Rotate90(v))) == p
  {
    var w := Rotate90(v);
    var c1, c2 := Dot(p, v), Dot(p, w);
    assert c1 * v.x + c2 * w.x == p.x * (v.x * v.x + v.y * v.y);
    assert c1 * v.y + c2 * w.y == p.y * (v.x * v.x + v.y * v.y);
  }

  // ---------- explained variance ----------

  /** updateUI's share of the first component, in percent; 0 when the total is not positive. */
  function ExplainedVariancePercent(e: EigenPairs): real
  {
    var total := e.lambda1 + e.lambda2;
    if total > 0.0 then e.lambda1 / total * 100.0 else 0.0
  }

  /** c1 * t <= x <= c2 * t bounds x / t between c1 and c2 when t > 0. */
  lemma DivBetween(x: real, t: real, c1: real, c2: real)
    requires t > 0.0 && c1 * t <= x <= c2 * t
    ensures c1 <= x / t <= c2
  {
    var q := 1.0 / t;
    assert x / t == x * q;
    assert t * q == 1.0;
    assert (c1 * t) * q == c1 * (t * q) && (c2 * t) * q == c2 * (t * q);
    MulMonotone(q, c1 * t, x);
    MulMonotone(q, x, c2 * t);
  }

  /** For ordered non-negative eigenvalues the first component explains 50..100 percent
      (0 only when both vanish). */
  lemma ExplainedVarianceBounds(e: EigenPairs)
    requires e.lambda1 >= e.lambda2 >= 0.0
    ensures 0.0 <= ExplainedVariancePercent(e) <= 100.0
    ensures e.lambda1 > 0.0 ==> ExplainedVariancePercent(e) >= 50.0
    ensures e.lambda1 == 0.0 ==> ExplainedVariancePercent(e) == 0.0
  {
    var total := e.lambda1 + e.lambda2;
    if total > 0.0 {
      DivBetween(e.lambda1, total, 0.5, 1.0);
    }
  }
}
