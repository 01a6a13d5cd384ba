/** The 8x8 grid arithmetic of the smiley lab (planets/planet102/script.js): the mean face
    of the expression patterns, a synthesised face from the mean and three eigen-grids, and
    the mean absolute difference between an original and a reconstructed face. */
module FaceGrids {

  /** A face: rows of pixel intensities. */
  type Grid = seq<seq<real>>

  /** Faces are 8 pixels square. */
  const Size: nat := 8

  predicate IsGrid(g: Grid)
  {
    |g| == Size && forall i :: 0 <= i < Size ==> |g[i]| == Size
  }

  predicate AllGrids(gs: seq<Grid>)
  {
    forall k :: 0 <= k < |gs| ==> IsGrid(gs[k])
  }

  /** Every intensity lies in [0, 1]. */
  predicate InUnit(g: Grid)
  {
    IsGrid(g) && forall i, j :: 0 <= i < Size && 0 <= j < Size ==> 0.0 <= g[i][j] <= 1.0
  }

  /** Every pixel of every pattern is 0 or 1, as in the five smiley patterns. */
  predicate AllBinary(gs: seq<Grid>)
  {
    AllGrids(gs) &&
    forall k, i, j :: 0 <= k < |gs| && 0 <= i < Size && 0 <= j < Size ==>
      gs[k][i][j] == 0.0 || gs[k][i][j] == 1.0
  }

  // ---------- calculateMeanFace ----------

  /** One pixel summed over the patterns, in the forEach's order. */
  function CellSum(gs: seq<Grid>, i: int, j: int): real
    requires AllGrids(gs) && 0 <= i < Size && 0 <= j < Size
  {
    if gs == [] then 0.0 else CellSum(gs[..|gs| - 1], i, j) + gs[|gs| - 1][i][j]
  }

  /** Over 0/1 patterns a pixel's sum lies between 0 and the number of patterns. */
  lemma {:induction false} CellSumBounds(gs: seq<Grid>, i: int, j: int)
    requires AllBinary(gs) && 0 <= i < Size && 0 <= j < Size
    ensures 0.0 <= CellSum(gs, i, j) <= |gs| as real
  {
    if gs != [] {
      CellSumBounds(gs[..|gs| - 1], i, j);
    }
  }

  /** Each pixel of the mean face of 0/1 patterns lies in [0, 1]. */
  lemma MeanCellInUnit(gs: seq<Grid>, i: int, j: int)
    requires AllBinary(gs) && |gs| > 0 && 0 <= i < Size && 0 <= j < Size
    ensures 0.0 <= CellSum(gs, i, j) / |gs| as real <= 1.0
  {
    CellSumBounds(gs, i, j);
    var n := |gs| as real;
    assert CellSum(gs, i, j) / n <= n / n;
  }

  /** One pixel of calculateMeanFace: the forEach over the patterns. */
  method SumCell(gs: seq<Grid>, i: int, j: int) returns (sum: real)
    requires AllGrids(gs) && 0 <= i < Size && 0 <= j < Size
    ensures sum == CellSum(gs, i, j)
  {
    sum := 0.0;
    for k := 0 to |gs|
      invariant sum == CellSum(gs[..k], i, j)
    {
      assert gs[..k + 1][..k] == gs[..k];
      sum := sum + gs[k][i][j];
    }
    assert gs[..|gs|] == gs;
  }

  /** calculateMeanFace: every pixel is the average of that pixel over the patterns. */
  method CalculateMeanFace(gs: seq<Grid>) returns (mean: Grid)
    requires AllGrids(gs) && |gs| > 0
    ensures IsGrid(mean)
    ensures forall i, j :: 0 <= i < Size && 0 <= j < Size ==>
              mean[i][j] == CellSum(gs, i, j) / |gs| as real
  {
    var n := |gs| as real;
    mean := [];
    for i := 0 to Size
      invariant |mean| == i
      invariant forall r :: 0 <= r < i ==> |mean[r]| == Size
      invariant forall r, c :: 0 <= r < i && 0 <= c < Size ==> mean[r][c] == CellSum(gs, r, c) / n
    {
      var row: seq<real> := [];
      for j := 0 to Size
        invariant |row| == j
        invariant forall c :: 0 <= c < j ==> row[c] == CellSum(gs, i, c) / n
      {
        var sum := SumCell(gs, i, j);
        row := row + [sum / n];
      }
      mean := mean + [row];
    }
  }

  // ---------- generateTargetFace ----------

  function Max(x: real, y: real): real { if x >= y then x else y }

  function Min(x: real, y: real): real { if x <= y then x else y }

  /** Math.max(0, Math.min(1, v)). */
  function Clamp01(v: real): real
  {
    Max(0.0, Min(1.0, v))
  }

  /** The clamp lands in [0, 1] and leaves values already there unchanged. */
  lemma ClampBounds(v: real)
    ensures 0.0 <= Clamp01(v) <= 1.0
    ensures Clamp01(v) == v <==> 0.0 <= v <= 1.0
    ensures v <= 0.0 ==> Clamp01(v) == 0.0
    ensures v >= 1.0 ==> Clamp01(v) == 1.0
  {
  }

  /** The mean pixel plus each coefficient times its eigen-grid's pixel, for the eigen-grids
      that exist. */
  function TargetValue(mean: Grid, evs: seq<Grid>, c1: real, c2: real, c3: real, i: int, j: int): real
    requires IsGrid(mean) && AllGrids(evs) && 0 <= i < Size && 0 <= j < Size
  {
    var v0 := mean[i][j];
    var v1 := if |evs| > 0 then v0 + c1 * evs[0][i][j] else v0;
    var v2 := if |evs| > 1 then v1 + c2 * evs[1][i][j] else v1;
    if |evs| > 2 then v2 + c3 * evs[2][i][j] else v2
  }

  /** A synthesised face pixel. */
  function TargetCell(mean: Grid, evs: seq<Grid>, c1: real, c2: real, c3: real, i: int, j: int): real
    requires IsGrid(mean) && AllGrids(evs) && 0 <= i < Size && 0 <= j < Size
  {
    Clamp01(TargetValue(mean, evs, c1, c2, c3, i, j))
  }

  /** Every synthesised pixel is in [0, 1]; with all coefficients 0 a face whose pixels are
      already in [0, 1] comes back unchanged, and a missing eigen-grid contributes nothing. */
  lemma TargetCellProperties(mean: Grid, evs: seq<Grid>, c1: real, c2: real, c3: real, i: int, j: int)
    requires IsGrid(mean) && AllGrids(evs) && 0 <= i < Size && 0 <= j < Size
    ensures 0.0 <= TargetCell(mean, evs, c1, c2, c3, i, j) <= 1.0
    ensures c1 == 0.0 && c2 == 0.0 && c3 == 0.0 && InUnit(mean) ==>
              TargetCell(mean, evs, c1, c2, c3, i, j) == mean[i][j]
    ensures |evs| == 0 ==> TargetCell(mean, evs, c1, c2, c3, i, j) == Clamp01(mean[i][j])
  {
    ClampBounds(TargetValue(mean, evs, c1, c2, c3, i, j));
  }

  /** generateTargetFace's nested loops. */
  method GenerateTargetFace(mean: Grid, evs: seq<Grid>, c1: real, c2: real, c3: real)
    returns (result: Grid)
    requires IsGrid(mean) && AllGrids(evs)
    ensures IsGrid(result)
    ensures forall i, j :: 0 <= i < Size && 0 <= j < Size ==>
              result[i][j] == TargetCell(mean, evs, c1, c2, c3, i, j)
  {
    result := [];
    for i := 0 to Size
      invariant |result| == i
      invariant forall r :: 0 <= r < i ==> |result[r]| == Size
      invariant forall r, c :: 0 <= r < i && 0 <= c < Size ==>
                  result[r][c] == TargetCell(mean, evs, c1, c2, c3, r, c)
    {
      var row: seq<real> := [];
      for j := 0 to Size
        invariant |row| == j
        invariant forall c :: 0 <= c < j ==> row[c] == TargetCell(mean, evs, c1, c2, c3, i, c)
      {
        var value := mean[i][j];
        if |evs| > 0 {
          value := value + c1 * evs[0][i][j];
        }
        if |evs| > 1 {
          value := value + c2 * evs[1][i][j];
        }
        if |evs| > 2 {
          value := value + c3 * evs[2][i][j];
        }
        row := row + [Max(0.0, Min(1.0, value))];
      }
      result := result + [row];
    }
  }

  // ---------- summed absolute differences: updateDifference and updateSimilarity ----------

  function Abs(x: real): real { if x < 0.0 then -x else x }

  /** The absolute differences of two equally long lists, summed left to right: one row of
      updateDifference's error, or updateSimilarity's distance between target and sliders. */
  function AbsDiffSum(a: seq<real>, b: seq<real>): (e: real)
    requires |a| == |b|
    ensures e >= 0.0
  {
    if a == [] then 0.0
    else AbsDiffSum(a[..|a| - 1], b[..|b| - 1]) + Abs(a[|a| - 1] - b[|b| - 1])
  }

  predicate SameShape(o: Grid, r: Grid)
  {
    |o| == |r| && forall i :: 0 <= i < |o| ==> |o[i]| == |r[i]|
  }

  /** The absolute differences of all pixels, row by row. */
  function GridError(o: Grid, r: Grid): (e: real)
    requires SameShape(o, r)
    ensures e >= 0.0
  {
    if o == [] then 0.0
    else GridError(o[..|o| - 1], r[..|r| - 1]) + AbsDiffSum(o[|o| - 1], r[|r| - 1])
  }

  /** The summed difference is zero exactly when the lists are equal. */
  lemma {:induction false} AbsDiffSumZero(a: seq<real>, b: seq<real>)
    requires |a| == |b|
    ensures AbsDiffSum(a, b) == 0.0 <==> a == b
  {
    if a != [] {
      var n := |a| - 1;
      AbsDiffSumZero(a[..n], b[..n]);
      assert a == a[..n] + [a[n]] && b == b[..n] + [b[n]];
    }
  }

  /** The grid's error is zero exactly when the grids are equal. */
  lemma {:induction false} GridErrorZero(o: Grid, r: Grid)
    requires SameShape(o, r)
    ensures GridError(o, r) == 0.0 <==> o == r
  {
    if o != [] {
      var n := |o| - 1;
      GridErrorZero(o[..n], r[..n]);
      AbsDiffSumZero(o[n], r[n]);
      assert o == o[..n] + [o[n]] && r == r[..n] + [r[n]];
    }
  }

  /** Between values in [0, 1] a row's error is at most its length. */
  lemma {:induction false} AbsDiffSumBound(a: seq<real>, b: seq<real>)
    requires |a| == |b|
    requires forall k :: 0 <= k < |a| ==> 0.0 <= a[k] <= 1.0 && 0.0 <= b[k] <= 1.0
    ensures AbsDiffSum(a, b) <= |a| as real
  {
    if a != [] {
      AbsDiffSumBound(a[..|a| - 1], b[..|b| - 1]);
    }
  }

  /** Between grids in [0, 1] the error of the first k rows is at most 8k. */
  lemma {:induction false} GridErrorBound(o: Grid, r: Grid, k: nat)
    requires InUnit(o) && InUnit(r) && k <= Size
    ensures GridError(o[..k], r[..k]) <= (k * Size) as real
  {
    if k > 0 {
      GridErrorBound(o, r, k - 1);
      assert o[..k][..k - 1] == o[..k - 1] && r[..k][..k - 1] == r[..k - 1];
      AbsDiffSumBound(o[k - 1], r[k - 1]);
    }
  }

  /** The average error updateDifference shows: the total over the 64 pixels, divided by 64. */
  function AverageError(o: Grid, r: Grid): real
    requires IsGrid(o) && IsGrid(r)
  {
    GridError(o, r) / (Size * Size) as real
  }

  /** The average error is non-negative, zero exactly for equal faces, and at most 1 for faces
      whose pixels lie in [0, 1]. */
  lemma AverageErrorProperties(o: Grid, r: Grid)
    requires IsGrid(o) && IsGrid(r)
    ensures AverageError(o, r) >= 0.0
    ensures AverageError(o, r) == 0.0 <==> o == r
    ensures InUnit(o) && InUnit(r) ==> AverageError(o, r) <= 1.0
  {
    GridErrorZero(o, r);
    if InUnit(o) && InUnit(r) {
      GridErrorBound(o, r, Size);
      assert o[..Size] == o && r[..Size] == r;
    }
  }

  /** The error accumulation of one row. */
  method SumRowError(a: seq<real>, b: seq<real>) returns (total: real)
    requires |a| == |b|
    ensures total == AbsDiffSum(a, b)
  {
    total := 0.0;
    for j := 0 to |a|
      invariant total == AbsDiffSum(a[..j], b[..j])
    {
      assert a[..j + 1][..j] == a[..j] && b[..j + 1][..j] == b[..j];
      total := total + Abs(a[j] - b[j]);
    }
    assert a[..|a|] == a && b[..|b|] == b;
  }

  /** updateDifference's double loop over the pixels, then the average. */
  method UpdateDifference(o: Grid, r: Grid) returns (avgError: real)
    requires IsGrid(o) && IsGrid(r)
    ensures avgError == AverageError(o, r)
  {
    var totalError := 0.0;
    for i := 0 to Size
      invariant totalError == GridError(o[..i], r[..i])
    {
      assert o[..i + 1][..i] == o[..i] && r[..i + 1][..i] == r[..i];
      var rowError := SumRowError(o[i], r[i]);
      totalError := totalError + rowError;
    }
    assert o[..Size] == o && r[..Size] == r;
    avgError := totalError / (Size * Size) as real;
  }
}
