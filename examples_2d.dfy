/** The ten example points the 2-D experiment loads at start-up (addExamplePoints in
    planets/planet101/main.js) and what the walkthrough computes from them. */
module ExampleData {
  import opened Wrappers
  import opened Vectors
  import opened Statistics
  import opened Eigen
  import opened Projections
  import opened Experiment2D

  /** One more point extends each coordinate sum by that point's term. */
  lemma PrefixSums(ps: seq<Point>, k: int)
    requires 0 < k <= |ps|
    ensures SumX(ps[..k]) == SumX(ps[..k - 1]) + ps[k - 1].x
    ensures SumY(ps[..k]) == SumY(ps[..k - 1]) + ps[k - 1].y
    ensures SumXX(ps[..k]) == SumXX(ps[..k - 1]) + ps[k - 1].x * ps[k - 1].x
    ensures SumYY(ps[..k]) == SumYY(ps[..k - 1]) + ps[k - 1].y * ps[k - 1].y
    ensures SumXY(ps[..k]) == SumXY(ps[..k - 1]) + ps[k - 1].x * ps[k - 1].y
  {
    assert ps[..k][..k - 1] == ps[..k - 1];
  }

  /** The coordinate sums of ten points, written out. */
  lemma ListSums(ps: seq<Point>)
    requires |ps| == 10
    ensures SumX(ps) == ps[0].x + ps[1].x + ps[2].x + ps[3].x + ps[4].x + ps[5].x + ps[6].x + ps[7].x + ps[8].x + ps[9].x
    ensures SumY(ps) == ps[0].y + ps[1].y + ps[2].y + ps[3].y + ps[4].y + ps[5].y + ps[6].y + ps[7].y + ps[8].y + ps[9].y
  {
    assert ps[..0] == [];
    PrefixSums(ps, 1); PrefixSums(ps, 2); PrefixSums(ps, 3); PrefixSums(ps, 4); PrefixSums(ps, 5);
    PrefixSums(ps, 6); PrefixSums(ps, 7); PrefixSums(ps, 8); PrefixSums(ps, 9); PrefixSums(ps, 10);
    assert ps[..10] == ps;
  }

  /** The sum of squared x of ten points, written out. */
  lemma ListSumXX(ps: seq<Point>)
    requires |ps| == 10
    ensures SumXX(ps) == ps[0].x * ps[0].x + ps[1].x * ps[1].x + ps[2].x * ps[2].x
              + ps[3].x * ps[3].x + ps[4].x * ps[4].x + ps[5].x * ps[5].x
              + ps[6].x * ps[6].x + ps[7].x * ps[7].x + ps[8].x * ps[8].x
              + ps[9].x * ps[9].x
  {
    assert ps[..0] == [];
    PrefixSums(ps, 1); PrefixSums(ps, 2); PrefixSums(ps, 3); PrefixSums(ps, 4); PrefixSums(ps, 5);
    PrefixSums(ps, 6); PrefixSums(ps, 7); PrefixSums(ps, 8); PrefixSums(ps, 9); PrefixSums(ps, 10);
    assert ps[..10] == ps;
  }

  /** The sum of squared y of ten points, written out. */
  lemma ListSumYY(ps: seq<Point>)
    requires |ps| == 10
    ensures SumYY(ps) == ps[0].y * ps[0].y + ps[1].y * ps[1].y + ps[2].y * ps[2].y
              + ps[3].y * ps[3].y + ps[4].y * ps[4].y + ps[5].y * ps[5].y
              + ps[6].y * ps[6].y + ps[7].y * ps[7].y + ps[8].y * ps[8].y
              + ps[9].y * ps[9].y
  {
    assert ps[..0] == [];
    PrefixSums(ps, 1); PrefixSums(ps, 2); PrefixSums(ps, 3); PrefixSums(ps, 4); PrefixSums(ps, 5);
    PrefixSums(ps, 6); PrefixSums(ps, 7); PrefixSums(ps, 8); PrefixSums(ps, 9); PrefixSums(ps, 10);
    assert ps[..10] == ps;
  }

  /** The sum of products x * y of ten points, written out. */
  lemma ListSumXY(ps: seq<Point>)
    requires |ps| == 10
    ensures SumXY(ps) == ps[0].x * ps[0].y + ps[1].x * ps[1].y + ps[2].x * ps[2].y
              + ps[3].x * ps[3].y + ps[4].x * ps[4].y + ps[5].x * ps[5].y
              + ps[6].x * ps[6].y + ps[7].x * ps[7].y + ps[8].x * ps[8].y
              + ps[9].x * ps[9].y
  {
    assert ps[..0] == [];
    PrefixSums(ps, 1); PrefixSums(ps, 2); PrefixSums(ps, 3); PrefixSums(ps, 4); PrefixSums(ps, 5);
    PrefixSums(ps, 6); PrefixSums(ps, 7); PrefixSums(ps, 8); PrefixSums(ps, 9); PrefixSums(ps, 10);
    assert ps[..10] == ps;
  }

  /** The example points' mean is (-0.4, 0.4). */
  lemma ExampleMean(ids: seq<real>)
    requires |ids| == 10
    ensures MeanOf(ExamplePoints(ids)) == Vec2(-0.4, 0.4)
  {
    ListSums(ExamplePoints(ids));
  }

  /** Their covariance matrix is [[28/5, 56/15], [56/15, 28/5]]. */
  lemma ExampleCovariance(ids: seq<real>)
    requires |ids| == 10
    ensures Covariance(Center(ExamplePoints(ids), MeanOf(ExamplePoints(ids))))
         == Matrix2(28.0 / 5.0, 56.0 / 15.0, 56.0 / 15.0, 28.0 / 5.0)
  {
    ExampleMean(ids);
    var cs := Center(ExamplePoints(ids), Vec2(-0.4, 0.4));
    ListSumXX(cs);
    ListSumYY(cs);
    ListSumXY(cs);
  }

  /** Running the walkthrough on the example points gives eigenvalues 28/3 and 28/15 and
      shows an explained variance of 250/3 % (83.3 %). */
  lemma ExampleWalkthrough(sqrt: real -> real, ids: seq<real>)
    requires IsSqrt(sqrt) && |ids| == 10
    ensures var t := FullPcaRun(sqrt, ExamplesLoaded(ids));
      && t.eigen.Finite?
      && t.eigen.value.lambda1 == 28.0 / 3.0 && t.eigen.value.lambda2 == 28.0 / 15.0
      && ShownExplainedVariance(t.eigen) == Some(250.0 / 3.0)
  {
    var s := ExamplesLoaded(ids);
    FullPcaStages(sqrt, s);
    ExampleCovariance(ids);
    var m := Matrix2(28.0 / 5.0, 56.0 / 15.0, 56.0 / 15.0, 28.0 / 5.0);
    assert Discriminant(m) == 12544.0 / 225.0;
    SqrtUnique(sqrt, Discriminant(m), 112.0 / 15.0);
  }
}
