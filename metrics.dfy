/** The numeric read-outs of the smiley lab (planets/planet102/script.js): the similarity
    between slider coefficients and a target expression (lab 2), and the explained-variance
    ratio, compression ratio and best number of components (lab 3). */
module LabMetrics {
  import opened FaceGrids

  // ---------- shared arithmetic ----------

  /** Math.round: the nearest integer, halves rounded up. */
  function Round(x: real): int
  {
    (x + 0.5).Floor
  }

  /** Rounding is monotone and maps [0, 100] into 0..100. */
  lemma RoundProperties(x: real, y: real)
    ensures x <= y ==> Round(x) <= Round(y)
    ensures 0.0 <= x <= 100.0 ==> 0 <= Round(x) <= 100
  {
  }

  // ---------- lab 2: similarity ----------

  /** The target buttons of lab 2; any other data-target value falls to the default. */
  datatype TargetExpression = SlightlyHappy | SlightlySad | Surprised | Unlisted

  /** The coefficients each target asks for. */
  function TargetCoefficients(t: TargetExpression): (cs: seq<real>)
    ensures |cs| == 3
  {
    match t
    case SlightlyHappy => [0.3, -0.1, 0.05]
    case SlightlySad => [-0.2, 0.1, 0.2]
    case Surprised => [0.1, 0.4, -0.1]
    case Unlisted => [0.0, 0.0, 0.0]
  }

  /** updateSimilarity's loop over the three coefficients. */
  method CoefficientDistance(t: seq<real>, c: seq<real>) returns (diff: real)
    requires |t| == |c|
    ensures diff == AbsDiffSum(t, c)
  {
    diff := 0.0;
    for i := 0 to |t|
      invariant diff == AbsDiffSum(t[..i], c[..i])
    {
      assert t[..i + 1][..i] == t[..i] && c[..i + 1][..i] == c[..i];
      diff := diff + Abs(t[i] - c[i]);
    }
    assert t[..|t|] == t && c[..|c|] == c;
  }

  /** max(0, 1 - diff / 3). */
  function Similarity(t: seq<real>, c: seq<real>): real
    requires |t| == |c|
  {
    var s := 1.0 - AbsDiffSum(t, c) / 3.0;
    if s >= 0.0 then s else 0.0
  }

  /** The percentage shown, and read back by submitSynthesis. */
  function SimilarityPercent(t: seq<real>, c: seq<real>): int
    requires |t| == |c|
  {
    Round(Similarity(t, c) * 100.0)
  }

  /** The error shown beside it. */
  function SimilarityError(t: seq<real>, c: seq<real>): real
    requires |t| == |c|
  {
    1.0 - Similarity(t, c)
  }

  /** Similarity and error lie in [0, 1] and add up to 1, the percentage lies in 0..100, and
      the similarity is 1 exactly when the coefficients are the target's. */
  lemma SimilarityProperties(t: seq<real>, c: seq<real>)
    requires |t| == |c|
    ensures 0.0 <= Similarity(t, c) <= 1.0
    ensures 0.0 <= SimilarityError(t, c) <= 1.0
    ensures Similarity(t, c) + SimilarityError(t, c) == 1.0
    ensures 0 <= SimilarityPercent(t, c) <= 100
    ensures Similarity(t, c) == 1.0 <==> t == c
  {
    AbsDiffSumZero(t, c);
    RoundProperties(Similarity(t, c) * 100.0, 0.0);
  }

  /** submitSynthesis accepts a shown percentage of 80 or more. */
  predicate SynthesisAccepted(percent: int)
  {
    percent >= 80
  }

  /** The acceptance rule in terms of the sliders: the shown percentage reaches 80 exactly
      when the coefficients are within a total distance of 0.615 of the target's. */
  lemma SynthesisAcceptedIff(t: seq<real>, c: seq<real>)
    requires |t| == |c|
    ensures SynthesisAccepted(SimilarityPercent(t, c)) <==> AbsDiffSum(t, c) <= 0.615
  {
    var d := AbsDiffSum(t, c);
    var s := Similarity(t, c);
    if 1.0 - d / 3.0 >= 0.0 {
      assert s * 100.0 + 0.5 == 100.5 - d * 100.0 / 3.0;
    } else {
      assert s == 0.0;
      assert Round(0.0) == 0;
    }
  }

  // ---------- lab 3: explained variance and compression ----------

  /** The lab's fixed eigenvalues, largest first. */
  const LabEigenvalues: seq<real> := [0.45, 0.25, 0.15, 0.08, 0.04, 0.02, 0.01, 0.00]

  predicate NonNegative(evs: seq<real>)
  {
    forall i :: 0 <= i < |evs| ==> evs[i] >= 0.0
  }

  /** The sum of all eigenvalues, front to back. */
  function Total(evs: seq<real>): real
  {
    if evs == [] then 0.0 else Total(evs[..|evs| - 1]) + evs[|evs| - 1]
  }

  /** The sum of the eigenvalues at indices below k, front to back. */
  function Explained(evs: seq<real>, k: int): real
  {
    if evs == [] then 0.0
    else Explained(evs[..|evs| - 1], k) + (if |evs| - 1 < k then evs[|evs| - 1] else 0.0)
  }

  /** For non-negative eigenvalues the explained part grows with k, never exceeds the total
      and is the total once k covers every eigenvalue. */
  lemma {:induction false} ExplainedProperties(evs: seq<real>, k: int, k2: int)
    requires NonNegative(evs)
    ensures 0.0 <= Explained(evs, k) <= Total(evs)
    ensures k <= k2 ==> Explained(evs, k) <= Explained(evs, k2)
    ensures k >= |evs| ==> Explained(evs, k) == Total(evs)
  {
    if evs != [] {
      ExplainedProperties(evs[..|evs| - 1], k, k2);
    }
  }

  /** The ratio updateStats computes: explained over total when the total is positive, else 0. */
  function VarianceRatio(evs: seq<real>, k: int): real
  {
    var total := Total(evs);
    if total > 0.0 then Explained(evs, k) / total else 0.0
  }

  /** Dividing by a positive number keeps order. */
  lemma DivMonotone(a: real, b: real, t: real)
    requires t > 0.0 && a <= b
    ensures a / t <= b / t
  {
    var q := 1.0 / t;
    assert a / t == a * q && b / t == b * q;
    assert b * q - a * q == (b - a) * q;
  }

  /** For non-negative eigenvalues the ratio lies in [0, 1], grows with k and is 1 once k
      covers every eigenvalue of a positive total. */
  lemma VarianceRatioProperties(evs: seq<real>, k: int, k2: int)
    requires NonNegative(evs)
    ensures 0.0 <= VarianceRatio(evs, k) <= 1.0
    ensures k <= k2 ==> VarianceRatio(evs, k) <= VarianceRatio(evs, k2)
    ensures k >= |evs| && Total(evs) > 0.0 ==> VarianceRatio(evs, k) == 1.0
  {
    ExplainedProperties(evs, k, k2);
    ExplainedProperties(evs, k2, k2);
    var total := Total(evs);
    if total > 0.0 {
      assert 0.0 / total == 0.0 && total / total == 1.0;
      DivMonotone(0.0, Explained(evs, k), total);
      DivMonotone(Explained(evs, k), total, total);
      if k <= k2 {
        DivMonotone(Explained(evs, k), Explained(evs, k2), total);
      }
    }
  }

  /** The loop shared by updateStats and findOptimalK: the total, and the part below k. */
  method VarianceSums(evs: seq<real>, k: int) returns (explained: real, total: real)
    ensures explained == Explained(evs, k) && total == Total(evs)
  {
    explained, total := 0.0, 0.0;
    for i := 0 to |evs|
      invariant explained == Explained(evs[..i], k) && total == Total(evs[..i])
    {
      assert evs[..i + 1][..i] == evs[..i];
      total := total + evs[i];
      if i < k {
        explained := explained + evs[i];
      }
    }
    assert evs[..|evs|] == evs;
  }

  /** The compression figure: 1 - (k coefficients + 64 mean pixels) / (64 pixels x 5 faces),
      as a percentage. */
  function CompressionRatio(k: int): real
  {
    (1.0 - (k + 64) as real / (64.0 * 5.0)) * 100.0
  }

  /** More components compress less; over the slider's range 1..8 the figure stays between
      77.5% and 80%. */
  lemma CompressionProperties(k: int, k2: int)
    ensures k < k2 ==> CompressionRatio(k2) < CompressionRatio(k)
    ensures 1 <= k <= 8 ==> 77.5 <= CompressionRatio(k) < 80.0
  {
  }

  /** updateStats: the shown explained-variance percentage and compression ratio. */
  method UpdateStats(evs: seq<real>, k: int) returns (variancePercent: int, compression: real)
    ensures variancePercent == Round(VarianceRatio(evs, k) * 100.0)
    ensures compression == CompressionRatio(k)
  {
    var explained, total := VarianceSums(evs, k);
    var ratio := if total > 0.0 then explained / total else 0.0;
    variancePercent := Round(ratio * 100.0);
    compression := (1.0 - (k + 64) as real / (64.0 * 5.0)) * 100.0;
  }

  // ---------- lab 3: the best number of components ----------

  /** The test explained / total >= 0.85 under JavaScript division: a zero total gives
      +Infinity (passes) for a positive explained part, otherwise -Infinity or NaN (fails). */
  predicate ReachesThreshold(explained: real, total: real)
  {
    if total == 0.0 then explained > 0.0 else explained / total >= 0.85
  }

  predicate Reaches(evs: seq<real>, k: int)
  {
    ReachesThreshold(Explained(evs, k), Total(evs))
  }

  /** The first k from `from` to 8 that reaches the threshold, or the default 3. */
  function FirstReaching(evs: seq<real>, from: int): (r: int)
    requires 1 <= from
    decreases 9 - from
  {
    if from > 8 then 3
    else if Reaches(evs, from) then from
    else FirstReaching(evs, from + 1)
  }

  /** findOptimalK's answer. */
  function OptimalK(evs: seq<real>): int
  {
    FirstReaching(evs, 1)
  }

  /** The search finds the least reaching k from `from` on, or falls back to 3 when none of
      from..8 reaches. */
  lemma {:induction false} FirstReachingIsLeast(evs: seq<real>, from: int)
    requires 1 <= from
    ensures var r := FirstReaching(evs, from);
      || (from <= r <= 8 && Reaches(evs, r) && forall k :: from <= k < r ==> !Reaches(evs, k))
      || (r == 3 && forall k :: from <= k <= 8 ==> !Reaches(evs, k))
    decreases 9 - from
  {
    if from <= 8 && !Reaches(evs, from) {
      FirstReachingIsLeast(evs, from + 1);
    }
  }

  /** findOptimalK returns the least k in 1..8 whose ratio reaches 85%, and 3 when none does;
      for non-negative eigenvalues with a positive total and at most 8 of them, some k does. */
  lemma OptimalKIsLeast(evs: seq<real>)
    ensures var r := OptimalK(evs);
      || (1 <= r <= 8 && Reaches(evs, r) && forall k :: 1 <= k < r ==> !Reaches(evs, k))
      || (r == 3 && forall k :: 1 <= k <= 8 ==> !Reaches(evs, k))
    ensures NonNegative(evs) && Total(evs) > 0.0 && |evs| <= 8 ==>
      1 <= OptimalK(evs) <= 8 && Reaches(evs, OptimalK(evs)) &&
      VarianceRatio(evs, OptimalK(evs)) >= 0.85
  {
    FirstReachingIsLeast(evs, 1);
    if NonNegative(evs) && Total(evs) > 0.0 && |evs| <= 8 {
      ExplainedProperties(evs, 8, 8);
      assert Reaches(evs, 8);
    }
  }

  /** One more eigenvalue extends the total and the parts below 1, 2 and 3 by its term. */
  lemma SumsSnoc(evs: seq<real>, i: int)
    requires 0 <= i < |evs|
    ensures Total(evs[..i + 1]) == Total(evs[..i]) + evs[i]
    ensures Explained(evs[..i + 1], 1) == Explained(evs[..i], 1) + (if i < 1 then evs[i] else 0.0)
    ensures Explained(evs[..i + 1], 2) == Explained(evs[..i], 2) + (if i < 2 then evs[i] else 0.0)
    ensures Explained(evs[..i + 1], 3) == Explained(evs[..i], 3) + (if i < 3 then evs[i] else 0.0)
  {
    assert evs[..i + 1][..i] == evs[..i];
  }

  /** With the lab's eigenvalues, 45% + 25% + 15% reaches 85% first at k = 3. */
  lemma LabOptimalK()
    ensures OptimalK(LabEigenvalues) == 3
    ensures VarianceRatio(LabEigenvalues, 3) == 0.85
  {
    var evs := LabEigenvalues;
    assert evs[..0] == [];
    SumsSnoc(evs, 0); SumsSnoc(evs, 1); SumsSnoc(evs, 2); SumsSnoc(evs, 3);
    SumsSnoc(evs, 4); SumsSnoc(evs, 5); SumsSnoc(evs, 6); SumsSnoc(evs, 7);
    assert evs[..8] == evs;
    assert Total(evs) == 1.0;
    assert Explained(evs, 1) == 0.45;
    assert Explained(evs, 2) == 0.70;
    assert Explained(evs, 3) == 0.85;
  }

  /** findOptimalK's search: for k = 1..8 the sums are recomputed and the first k reaching the
      threshold is taken. */
  method FindOptimalK(evs: seq<real>) returns (optimalK: int)
    ensures optimalK == OptimalK(evs)
  {
    optimalK := 3;
    var k := 1;
    while k <= 8
      invariant 1 <= k <= 9
      invariant FirstReaching(evs, 1) == FirstReaching(evs, k)
      decreases 9 - k
    {
      var explained, total := VarianceSums(evs, k);
      var reached := if total == 0.0 then explained > 0.0 else explained / total >= 0.85;
      if reached {
        optimalK := k;
        return;
      }
      k := k + 1;
    }
  }
}
