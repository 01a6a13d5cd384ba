/** The PCA2DExperiment object of planets/planet101/main.js: its point edits, its five
    calculation stages, its step navigation and the explained-variance read-out.

    Every event is first written as a function from one snapshot of the object's data
    fields to the next; the class below performs the same event in place and promises
    that its fields afterwards are that function of its fields before. */
module Experiment2D {
  import opened Wrappers
  import opened Vectors
  import opened Statistics
  import opened Eigen
  import opened Projections

  /** The experiment's data fields at one moment. eigen holds eigenvalues and eigenvectors
      together: the widget always sets and clears the two arrays together. */
  datatype Snapshot = Snapshot(
    points: seq<Point>,
    meanPoint: Option<Vec2>,
    centeredPoints: seq<Point>,
    covMatrix: Derived<Matrix2>,
    eigen: Derived<EigenPairs>,
    projectedPoints: Derived<seq<Projection>>,
    currentStep: int)

  /** Clicks closer than this to a point delete or drag it. */
  const PickRadius: real := 0.5

  /** The walkthrough's steps are numbered 1 to 6. */
  const LastStep: int := 6

  /** The fields as the constructor sets them, before the example points are added. */
  function Initial(): Snapshot
  {
    Snapshot([], None, [], Absent, Absent, Absent, 1)
  }

  /** What holds between events: the step is in range, a mean exists only for a non-empty
      point list, centred points exist only beside a mean and one per point, a covariance
      matrix is positive semidefinite and a decomposition is ordered and orthonormal. */
  predicate Consistent(s: Snapshot)
  {
    && 1 <= s.currentStep <= LastStep
    && (s.meanPoint.Some? ==> |s.points| > 0)
    && (|s.centeredPoints| > 0 ==> s.meanPoint.Some? && |s.centeredPoints| == |s.points|)
    && (s.covMatrix.Finite? ==> PositiveSemidefinite(s.covMatrix.value))
    && (s.eigen.Finite? ==> EigenInvariant(s.eigen.value))
  }

  // ---------- point edits ----------

  /** resetCalculations: mean, centred points, eigen-decomposition and projection are
      cleared and the step returns to 1; the covariance matrix is NOT cleared. */
  function CalculationsReset(s: Snapshot): Snapshot
  {
    s.(meanPoint := None, centeredPoints := [], eigen := Absent, projectedPoints := Absent,
       currentStep := 1)
  }

  /** addPoint: append the point, then reset the calculations. */
  function PointAdded(s: Snapshot, x: real, y: real, id: real): Snapshot
  {
    CalculationsReset(s.(points := s.points + [Point(x, y, id)]))
  }

  /** The first index i with the smallest distance from q: no earlier point is as close,
      no point is closer. */
  ghost predicate IsFirstNearest(sqrt: real -> real, ps: seq<Point>, q: Vec2, i: int)
    requires IsSqrt(sqrt)
  {
    && 0 <= i < |ps|
    && (forall j :: 0 <= j < |ps| ==> Distance(sqrt, q, Pos(ps[i])) <= Distance(sqrt, q, Pos(ps[j])))
    && (forall j :: 0 <= j < i ==> Distance(sqrt, q, Pos(ps[i])) < Distance(sqrt, q, Pos(ps[j])))
  }

  /** findNearestPoint's scan: a later point replaces the best so far only when strictly
      closer, so the result is the first nearest point, and nothing for no points. */
  function Nearest(sqrt: real -> real, ps: seq<Point>, q: Vec2): (r: Option<nat>)
    requires IsSqrt(sqrt)
    ensures r.None? <==> |ps| == 0
    ensures r.Some? ==> IsFirstNearest(sqrt, ps, q, r.value)
  {
    if |ps| == 0 then None
    else
      var last := |ps| - 1;
      var r := Nearest(sqrt, ps[..last], q);
      if r.None? || Distance(sqrt, q, Pos(ps[last])) < Distance(sqrt, q, Pos(ps[r.value])) then
        Some(last)
      else
        r
  }

  /** deleteNearestPoint's filter: the points whose id differs, in their order. */
  function RemoveId(ps: seq<Point>, id: real): (r: seq<Point>)
    ensures forall p :: p in r <==> p in ps && p.id != id
    ensures |r| <= |ps|
  {
    if ps == [] then []
    else (if ps[0].id != id then [ps[0]] else []) + RemoveId(ps[1..], id)
  }

  predicate UniqueIds(ps: seq<Point>)
  {
    forall i, j :: 0 <= i < j < |ps| ==> ps[i].id != ps[j].id
  }

  /** deleteNearestPoint: when the nearest point lies within the pick radius, every point
      with its id is removed and the calculations are reset; otherwise nothing changes. */
  function NearestDeleted(sqrt: real -> real, s: Snapshot, q: Vec2): Snapshot
    requires IsSqrt(sqrt)
  {
    var r := Nearest(sqrt, s.points, q);
    if r.Some? && Distance(sqrt, q, Pos(s.points[r.value])) < PickRadius then
      CalculationsReset(s.(points := RemoveId(s.points, s.points[r.value].id)))
    else
      s
  }

  /** The move tool: a press within the pick radius of the nearest point followed by a
      drag to `to` rewrites that point's coordinates and nothing else; the cached mean,
      centred points and later stages are left as they were. */
  function NearestDragged(sqrt: real -> real, s: Snapshot, from: Vec2, to: Vec2): Snapshot
    requires IsSqrt(sqrt)
  {
    var r := Nearest(sqrt, s.points, from);
    if r.Some? && Distance(sqrt, from, Pos(s.points[r.value])) < PickRadius then
      s.(points := s.points[r.value := Point(to.x, to.y, s.points[r.value].id)])
    else
      s
  }

  /** undoLastPoint: drop the last point and reset, only when there is one. */
  function LastUndone(s: Snapshot): Snapshot
  {
    if |s.points| > 0 then CalculationsReset(s.(points := s.points[..|s.points| - 1])) else s
  }

  /** clearAllPoints: no points, calculations reset. */
  function AllCleared(s: Snapshot): Snapshot
  {
    CalculationsReset(s.(points := []))
  }

  /** Eight points on the line y = x + 1 and two noise points, with the ids the clock gave them. */
  function ExamplePoints(ids: seq<real>): (ps: seq<Point>)
    requires |ids| == 10
  {
    [Point(-4.0, -3.0, ids[0]), Point(-3.0, -2.0, ids[1]), Point(-2.0, -1.0, ids[2]),
     Point(-1.0, 0.0, ids[3]), Point(0.0, 1.0, ids[4]), Point(1.0, 2.0, ids[5]),
     Point(2.0, 3.0, ids[6]), Point(3.0, 4.0, ids[7]), Point(-2.0, 2.0, ids[8]),
     Point(2.0, -2.0, ids[9])]
  }

  /** addPoint applied to each point in turn. */
  function PointsAdded(s: Snapshot, ps: seq<Point>): Snapshot
    decreases |ps|
  {
    if ps == [] then s else PointsAdded(PointAdded(s, ps[0].x, ps[0].y, ps[0].id), ps[1..])
  }

  /** Adding points one by one appends them in order and leaves the calculations reset. */
  lemma {:induction false} PointsAddedAppends(s: Snapshot, ps: seq<Point>)
    requires ps != []
    ensures PointsAdded(s, ps) == CalculationsReset(s.(points := s.points + ps))
    decreases |ps|
  {
    if |ps| == 1 {
      assert PointsAdded(s, ps) == PointAdded(s, ps[0].x, ps[0].y, ps[0].id);
      assert ps == [Point(ps[0].x, ps[0].y, ps[0].id)];
    } else {
      var t := PointAdded(s, ps[0].x, ps[0].y, ps[0].id);
      PointsAddedAppends(t, ps[1..]);
      assert t.points + ps[1..] == s.points + ps;
    }
  }

  /** The object right after its constructor: the example points and nothing computed. */
  function ExamplesLoaded(ids: seq<real>): (s: Snapshot)
    requires |ids| == 10
    ensures Consistent(s)
    ensures s == Initial().(points := ExamplePoints(ids))
  {
    PointsAddedAppends(Initial(), ExamplePoints(ids));
    PointsAdded(Initial(), ExamplePoints(ids))
  }

  // ---------- calculation stages ----------

  /** calculateMean: refused for no points; otherwise the mean and step 2. */
  function MeanCalculated(s: Snapshot): Snapshot
  {
    if |s.points| == 0 then s
    else s.(meanPoint := Some(MeanOf(s.points)), currentStep := 2)
  }

  /** centerData: refused without a mean; otherwise the CURRENT points minus the cached
      mean, and step 3. */
  function DataCentered(s: Snapshot): Snapshot
  {
    if s.meanPoint.None? then s
    else s.(centeredPoints := Center(s.points, s.meanPoint.value), currentStep := 3)
  }

  /** The matrix calculateCovariance stores: with one point it divides by n - 1 = 0. */
  function CovarianceOf(cs: seq<Point>): Derived<Matrix2>
    requires |cs| > 0
  {
    if |cs| == 1 then NonFinite else Finite(Covariance(cs))
  }

  /** calculateCovariance: refused without centred points; otherwise the matrix and step 4. */
  function CovarianceCalculated(s: Snapshot): Snapshot
  {
    if |s.centeredPoints| == 0 then s
    else s.(covMatrix := CovarianceOf(s.centeredPoints), currentStep := 4)
  }

  /** calculateEigenvectors: refused while no matrix was ever computed; a matrix with
      NaN entries gives NaN eigenvalues and vectors; otherwise the decomposition. Step 5. */
  function EigenCalculated(sqrt: real -> real, s: Snapshot): Snapshot
    requires IsSqrt(sqrt) && Consistent(s)
  {
    match s.covMatrix
    case Absent => s
    case Finite(m) => s.(eigen := Finite(Decompose(sqrt, m)), currentStep := 5)
    case NonFinite => s.(eigen := NonFinite, currentStep := 5)
  }

  /** projectAndReconstruct: refused without eigenvectors; otherwise every centred point
      projected on the first vector (NaN vectors make every entry NaN). Step 6. */
  function Projected(s: Snapshot): Snapshot
  {
    match s.eigen
    case Absent => s
    case Finite(e) => s.(projectedPoints := Finite(Project(s.centeredPoints, e.v1)), currentStep := 6)
    case NonFinite =>
      s.(projectedPoints := if |s.centeredPoints| == 0 then Finite([]) else NonFinite,
         currentStep := 6)
  }

  /** The stage nextStep runs on arriving at step k. */
  function StageFor(sqrt: real -> real, s: Snapshot, k: int): Snapshot
    requires IsSqrt(sqrt) && Consistent(s)
  {
    if k == 2 then MeanCalculated(s)
    else if k == 3 then DataCentered(s)
    else if k == 4 then CovarianceCalculated(s)
    else if k == 5 then EigenCalculated(sqrt, s)
    else if k == 6 then Projected(s)
    else s
  }

  /** nextStep: below step 6 the step is incremented FIRST and then the stage for the new
      step runs, whose guard may refuse it. */
  function SteppedForward(sqrt: real -> real, s: Snapshot): Snapshot
    requires IsSqrt(sqrt) && Consistent(s)
  {
    if s.currentStep < LastStep then
      var t := s.(currentStep := s.currentStep + 1);
      StageFor(sqrt, t, t.currentStep)
    else
      s
  }

  /** prevStep: only the step number goes back; no data is cleared. */
  function SteppedBack(s: Snapshot): Snapshot
  {
    if s.currentStep > 1 then s.(currentStep := s.currentStep - 1) else s
  }

  /** runFullPCA: refused for fewer than two points; otherwise the five stages in order. */
  function FullPcaRun(sqrt: real -> real, s: Snapshot): Snapshot
    requires IsSqrt(sqrt) && Consistent(s)
  {
    if |s.points| < 2 then s
    else
      var s1 := MeanCalculated(s);
      var s2 := DataCentered(s1);
      var s3 := CovarianceCalculated(s2);
      StagesKeepConsistent(sqrt, s);
      StagesKeepConsistent(sqrt, s1);
      StagesKeepConsistent(sqrt, s2);
      StagesKeepConsistent(sqrt, s3);
      Projected(EigenCalculated(sqrt, s3))
  }

  /** The explained-variance figure updateUI writes: None when there are no eigenvalues, in
      which case the text is not refreshed and any earlier figure stays on screen; the first
      eigenvalue's share otherwise, and 0 for NaN eigenvalues (NaN > 0 is false). */
  function ShownExplainedVariance(eigen: Derived<EigenPairs>): Option<real>
  {
    match eigen
    case Absent => None
    case Finite(e) => Some(ExplainedVariancePercent(e))
    case NonFinite => Some(0.0)
  }

  // ---------- what the events keep and what they do ----------

  /** Every stage, nextStep and prevStep keeps the object consistent. */
  lemma StagesKeepConsistent(sqrt: real -> real, s: Snapshot)
    requires IsSqrt(sqrt) && Consistent(s)
    ensures Consistent(MeanCalculated(s))
    ensures Consistent(DataCentered(s))
    ensures Consistent(CovarianceCalculated(s))
    ensures Consistent(EigenCalculated(sqrt, s))
    ensures Consistent(Projected(s))
    ensures Consistent(SteppedForward(sqrt, s))
    ensures Consistent(SteppedBack(s))
  {
    if s.covMatrix.Finite? {
      DecomposeKeepsInvariant(sqrt, s.covMatrix.value);
    }
    if s.currentStep < LastStep {
      var t := s.(currentStep := s.currentStep + 1);
      if t.covMatrix.Finite? {
        DecomposeKeepsInvariant(sqrt, t.covMatrix.value);
      }
    }
  }

  /** Every point edit keeps the object consistent. */
  lemma EditsKeepConsistent(sqrt: real -> real, s: Snapshot, x: real, y: real, id: real, q: Vec2, to: Vec2)
    requires IsSqrt(sqrt) && Consistent(s)
    ensures Consistent(PointAdded(s, x, y, id))
    ensures Consistent(NearestDeleted(sqrt, s, q))
    ensures Consistent(NearestDragged(sqrt, s, q, to))
    ensures Consistent(LastUndone(s))
    ensures Consistent(AllCleared(s))
    ensures Consistent(CalculationsReset(s))
  {
  }

  /** nextStep always advances the step by one below step 6, whether or not the stage's
      guard lets it run; when the guard refuses, only the step number has changed. */
  lemma NextStepAlwaysAdvances(sqrt: real -> real, s: Snapshot)
    requires IsSqrt(sqrt) && Consistent(s)
    ensures s.currentStep < LastStep ==> SteppedForward(sqrt, s).currentStep == s.currentStep + 1
    ensures s.currentStep == LastStep ==> SteppedForward(sqrt, s) == s
    ensures s.currentStep == 1 && |s.points| == 0 ==>
              SteppedForward(sqrt, s) == s.(currentStep := 2)
    ensures s.currentStep == 2 && s.meanPoint.None? ==>
              SteppedForward(sqrt, s) == s.(currentStep := 3)
    ensures s.currentStep == 3 && |s.centeredPoints| == 0 ==>
              SteppedForward(sqrt, s) == s.(currentStep := 4)
  {
  }

  /** Edits reset the stages but keep the covariance matrix, so calculateEigenvectors right
      after an edit decomposes the matrix of the OLD points. */
  lemma StaleCovarianceAfterEdit(sqrt: real -> real, s: Snapshot, x: real, y: real, id: real)
    requires IsSqrt(sqrt) && Consistent(s) && s.covMatrix.Finite?
    ensures var t := EigenCalculated(sqrt, PointAdded(s, x, y, id));
      && t.points == s.points + [Point(x, y, id)]
      && t.meanPoint.None? && t.centeredPoints == []
      && t.eigen == Finite(Decompose(sqrt, s.covMatrix.value))
      && t.currentStep == 5
  {
    EditsKeepConsistent(sqrt, s, x, y, id, Vec2(x, y), Vec2(x, y));
  }

  /** Replacing one point changes the coordinate sums by the change of that point. */
  lemma {:induction false} SumsAfterUpdate(ps: seq<Point>, i: int, p: Point)
    requires 0 <= i < |ps|
    ensures SumX(ps[i := p]) == SumX(ps) - ps[i].x + p.x
    ensures SumY(ps[i := p]) == SumY(ps) - ps[i].y + p.y
  {
    var last := |ps| - 1;
    if i == last {
      assert ps[i := p][..last] == ps[..last];
    } else {
      assert ps[i := p][..last] == ps[..last][i := p];
      SumsAfterUpdate(ps[..last], i, p);
    }
  }

  /** Moving one point horizontally moves the mean horizontally. */
  lemma MeanAfterMove(ps: seq<Point>, i: int, p: Point)
    requires 0 <= i < |ps| && p.x != ps[i].x
    ensures MeanOf(ps[i := p]) != MeanOf(ps)
  {
    SumsAfterUpdate(ps, i, p);
    var n := |ps| as real;
    var a, b := SumX(ps[i := p]), SumX(ps);
    assert a != b;
    assert (a / n) * n == a;
    assert (b / n) * n == b;
  }

  /** A drag that moves a point horizontally leaves the cached mean behind: it is no longer
      the mean of the points, and centerData will subtract the stale value. */
  lemma DragLeavesMeanStale(sqrt: real -> real, s: Snapshot, from: Vec2, to: Vec2, i: nat)
    requires IsSqrt(sqrt) && Consistent(s)
    requires |s.points| > 0 && s.meanPoint == Some(MeanOf(s.points))
    requires Nearest(sqrt, s.points, from) == Some(i)
    requires Distance(sqrt, from, Pos(s.points[i])) < PickRadius
    requires to.x != s.points[i].x
    ensures var t := NearestDragged(sqrt, s, from, to);
      && t.points == s.points[i := Point(to.x, to.y, s.points[i].id)]
      && t.meanPoint == s.meanPoint
      && t.centeredPoints == s.centeredPoints && t.covMatrix == s.covMatrix
      && t.eigen == s.eigen && t.currentStep == s.currentStep
      && t.meanPoint != Some(MeanOf(t.points))
  {
    MeanAfterMove(s.points, i, Point(to.x, to.y, s.points[i].id));
  }

  /** Removing a unique id takes out exactly the one point that carries it. */
  lemma {:induction false} RemoveUniqueId(ps: seq<Point>, i: int)
    requires UniqueIds(ps) && 0 <= i < |ps|
    ensures RemoveId(ps, ps[i].id) == ps[..i] + ps[i + 1..]
  {
    var id := ps[i].id;
    if i == 0 {
      KeepAllOtherIds(ps[1..], id);
    } else {
      var tail := ps[1..];
      assert tail[i - 1] == ps[i];
      assert UniqueIds(tail) by {
        forall j, k | 0 <= j < k < |tail| ensures tail[j].id != tail[k].id {
          assert tail[j] == ps[j + 1] && tail[k] == ps[k + 1];
        }
      }
      RemoveUniqueId(tail, i - 1);
      assert ps[0].id != id;
      assert RemoveId(ps, id) == [ps[0]] + RemoveId(tail, id);
      assert ps[..i] == [ps[0]] + tail[..i - 1];
      assert ps[i + 1..] == tail[i..];
    }
  }

  /** Filtering an id no point carries keeps the list as it is. */
  lemma {:induction false} KeepAllOtherIds(ps: seq<Point>, id: real)
    requires forall k :: 0 <= k < |ps| ==> ps[k].id != id
    ensures RemoveId(ps, id) == ps
  {
    if ps != [] {
      KeepAllOtherIds(ps[1..], id);
    }
  }

  /** With one centred point the covariance divides by zero, and the NaN entries reach the
      eigenvalues, the projections and the explained-variance figure, which then reads 0. */
  lemma SinglePointPipeline(sqrt: real -> real, s: Snapshot)
    requires IsSqrt(sqrt) && Consistent(s) && |s.centeredPoints| == 1
    ensures CovarianceCalculated(s).covMatrix == NonFinite
    ensures var t := EigenCalculated(sqrt, CovarianceCalculated(s));
      && t.eigen == NonFinite
      && Projected(t).projectedPoints == NonFinite
      && ShownExplainedVariance(t.eigen) == Some(0.0)
  {
    StagesKeepConsistent(sqrt, s);
  }

  /** runFullPCA on two or more points runs every stage: the mean of the points, the points
      centred on it, their covariance, its decomposition, the projections on the first
      eigenvector, and step 6. */
  lemma FullPcaStages(sqrt: real -> real, s: Snapshot)
    requires IsSqrt(sqrt) && Consistent(s) && |s.points| >= 2
    ensures var t := FullPcaRun(sqrt, s);
      var cs := Center(s.points, MeanOf(s.points));
      && t.points == s.points
      && t.meanPoint == Some(MeanOf(s.points))
      && t.centeredPoints == cs
      && t.covMatrix == Finite(Covariance(cs))
      && t.eigen == Finite(Decompose(sqrt, Covariance(cs)))
      && t.projectedPoints == Finite(Project(cs, Decompose(sqrt, Covariance(cs)).v1))
      && t.currentStep == LastStep
  {
  }

  /** What runFullPCA on two or more points establishes: centred points whose mean is the
      origin, an ordered orthonormal decomposition, one projection per point whose residual
      is perpendicular to the first axis, and a shown explained variance between 0% and 100%
      that is at least 50% unless every point coincides with the mean. */
  lemma FullPcaResult(sqrt: real -> real, s: Snapshot)
    requires IsSqrt(sqrt) && Consistent(s) && |s.points| >= 2
    ensures var t := FullPcaRun(sqrt, s);
      && t.centeredPoints == Center(s.points, MeanOf(s.points))
      && MeanOf(t.centeredPoints) == Vec2(0.0, 0.0)
      && t.eigen.Finite? && EigenInvariant(t.eigen.value)
      && t.projectedPoints.Finite?
      && |t.projectedPoints.value| == |s.points|
      && (forall i :: 0 <= i < |s.points| ==>
            Dot(Sub(Pos(t.centeredPoints[i]), t.projectedPoints.value[i].reconstructed),
                t.eigen.value.v1) == 0.0)
      && ShownExplainedVariance(t.eigen).Some?
      && 0.0 <= ShownExplainedVariance(t.eigen).value <= 100.0
      && (t.eigen.value.lambda1 > 0.0 ==> ShownExplainedVariance(t.eigen).value >= 50.0)
  {
    FullPcaStages(sqrt, s);
    var cs := Center(s.points, MeanOf(s.points));
    CenteredSumsToZero(s.points);
    var cov := Covariance(cs);
    DecomposeKeepsInvariant(sqrt, cov);
    var e := Decompose(sqrt, cov);
    ProjectionResiduals(cs, e.v1);
    ExplainedVarianceBounds(e);
  }

  /** The read-out is refreshed exactly when eigenvalues exist, and then with a percentage. */
  lemma ShownExplainedVarianceBounds(s: Snapshot)
    requires Consistent(s)
    ensures ShownExplainedVariance(s.eigen).None? <==> s.eigen.Absent?
    ensures ShownExplainedVariance(s.eigen).Some? ==>
              0.0 <= ShownExplainedVariance(s.eigen).value <= 100.0
  {
    if s.eigen.Finite? {
      ExplainedVarianceBounds(s.eigen.value);
    }
  }

  // ---------- the loops of the stages ----------

  /** calculateMean's loop: the coordinate sums accumulated front to back. */
  method SumCoordinates(ps: seq<Point>) returns (sumX: real, sumY: real)
    ensures sumX == SumX(ps) && sumY == SumY(ps)
  {
    sumX, sumY := 0.0, 0.0;
    for k := 0 to |ps|
      invariant sumX == SumX(ps[..k]) && sumY == SumY(ps[..k])
    {
      assert ps[..k + 1][..k] == ps[..k];
      sumX := sumX + ps[k].x;
      sumY := sumY + ps[k].y;
    }
    assert ps[..|ps|] == ps;
  }

  /** calculateCovariance's loop: the sums of x * x, x * y and y * y in one pass. */
  method SumProducts(cs: seq<Point>) returns (covXX: real, covXY: real, covYY: real)
    ensures covXX == SumXX(cs) && covXY == SumXY(cs) && covYY == SumYY(cs)
  {
    covXX, covXY, covYY := 0.0, 0.0, 0.0;
    for k := 0 to |cs|
      invariant covXX == SumXX(cs[..k]) && covXY == SumXY(cs[..k]) && covYY == SumYY(cs[..k])
    {
      assert cs[..k + 1][..k] == cs[..k];
      covXX := covXX + cs[k].x * cs[k].x;
      covXY := covXY + cs[k].x * cs[k].y;
      covYY := covYY + cs[k].y * cs[k].y;
    }
    assert cs[..|cs|] == cs;
  }

  // ---------- the experiment object ----------

  /** PCA2DExperiment: the data fields the widget mutates, the square root it calls, and one
      method per event. Every method leaves the fields equal to the event's function above
      applied to the fields before. */
  class PcaExperiment {
    var points: seq<Point>
    var meanPoint: Option<Vec2>
    var centeredPoints: seq<Point>
    var covMatrix: Derived<Matrix2>
    var eigen: Derived<EigenPairs>
    var projectedPoints: Derived<seq<Projection>>
    var currentStep: int
    const sqrt: real -> real

    function State(): Snapshot
      reads this
    {
      Snapshot(points, meanPoint, centeredPoints, covMatrix, eigen, projectedPoints, currentStep)
    }

    ghost predicate Valid()
      reads this
    {
      IsSqrt(sqrt) && Consistent(State())
    }

    /** The constructor and init: empty fields, step 1, then the ten example points added
        one by one. The ids stand for the clock readings addPoint draws. */
    constructor (sqrt: real -> real, ids: seq<real>)
      requires IsSqrt(sqrt) && |ids| == 10
      ensures Valid() && this.sqrt == sqrt
      ensures State() == ExamplesLoaded(ids)
    {
      this.sqrt := sqrt;
      points := [];
      meanPoint := None;
      centeredPoints := [];
      covMatrix := Absent;
      eigen := Absent;
      projectedPoints := Absent;
      currentStep := 1;
      new;
      var examples := ExamplePoints(ids);
      for k := 0 to |examples|
        invariant Valid() && this.sqrt == sqrt
        invariant State() == Initial().(points := examples[..k])
      {
        assert examples[..k + 1] == examples[..k] + [examples[k]];
        AddPoint(examples[k].x, examples[k].y, examples[k].id);
      }
      assert examples[..|examples|] == examples;
    }

    /** resetCalculations. */
    method ResetCalculations()
      requires IsSqrt(sqrt) && (covMatrix.Finite? ==> PositiveSemidefinite(covMatrix.value))
      modifies this
      ensures Valid() && State() == CalculationsReset(old(State()))
    {
      meanPoint := None;
      centeredPoints := [];
      eigen := Absent;
      projectedPoints := Absent;
      currentStep := 1;
    }

    /** addPoint, with the clock-derived id passed in. */
    method AddPoint(x: real, y: real, id: real)
      requires Valid()
      modifies this
      ensures Valid() && State() == PointAdded(old(State()), x, y, id)
    {
      points := points + [Point(x, y, id)];
      ResetCalculations();
    }

    /** findNearestPoint's loop; None stands for the initial Infinity. */
    method FindNearestPoint(q: Vec2) returns (nearest: Option<nat>)
      requires Valid()
      ensures nearest == Nearest(sqrt, points, q)
    {
      var ps := points;
      nearest := None;
      var minDistance: Option<real> := None;
      for k := 0 to |ps|
        invariant nearest == Nearest(sqrt, ps[..k], q)
        invariant nearest.Some? <==> minDistance.Some?
        invariant nearest.Some? ==>
          nearest.value < k && minDistance.value == Distance(sqrt, q, Pos(ps[nearest.value]))
      {
        var distance := Distance(sqrt, q, Pos(ps[k]));
        assert ps[..k + 1][..k] == ps[..k];
        if minDistance.None? || distance < minDistance.value {
          minDistance := Some(distance);
          nearest := Some(k);
        }
      }
      assert ps[..|ps|] == ps;
    }

    /** deleteNearestPoint. */
    method DeleteNearestPoint(q: Vec2)
      requires Valid()
      modifies this
      ensures Valid() && State() == NearestDeleted(sqrt, old(State()), q)
    {
      var nearest := FindNearestPoint(q);
      if nearest.Some? && Distance(sqrt, q, Pos(points[nearest.value])) < PickRadius {
        points := RemoveId(points, points[nearest.value].id);
        ResetCalculations();
      }
    }

    /** The move tool: press at `from`, drag to `to`. */
    method DragNearestPoint(from: Vec2, to: Vec2)
      requires Valid()
      modifies this
      ensures Valid() && State() == NearestDragged(sqrt, old(State()), from, to)
    {
      var nearest := FindNearestPoint(from);
      if nearest.Some? && Distance(sqrt, from, Pos(points[nearest.value])) < PickRadius {
        var i := nearest.value;
        points := points[i := Point(to.x, to.y, points[i].id)];
      }
    }

    /** undoLastPoint. */
    method UndoLastPoint()
      requires Valid()
      modifies this
      ensures Valid() && State() == LastUndone(old(State()))
    {
      if |points| > 0 {
        points := points[..|points| - 1];
        ResetCalculations();
      }
    }

    /** clearAllPoints. */
    method ClearAllPoints()
      requires Valid()
      modifies this
      ensures Valid() && State() == AllCleared(old(State()))
    {
      points := [];
      ResetCalculations();
    }

    /** calculateMean, summing the coordinates front to back. */
    method CalculateMean()
      requires Valid()
      modifies this
      ensures Valid() && State() == MeanCalculated(old(State()))
    {
      if |points| == 0 {
        return;
      }
      var ps := points;
      var sumX, sumY := SumCoordinates(ps);
      meanPoint := Some(Vec2(sumX / |ps| as real, sumY / |ps| as real));
      currentStep := 2;
    }

    /** centerData. */
    method CenterData()
      requires Valid()
      modifies this
      ensures Valid() && State() == DataCentered(old(State()))
    {
      if meanPoint.None? {
        return;
      }
      centeredPoints := Center(points, meanPoint.value);
      currentStep := 3;
    }

    /** calculateCovariance: the three sums in one pass, then a division by n - 1. */
    method CalculateCovariance()
      requires Valid()
      modifies this
      ensures Valid() && State() == CovarianceCalculated(old(State()))
    {
      if |centeredPoints| == 0 {
        return;
      }
      var cs := centeredPoints;
      var n := |cs|;
      var covXX, covXY, covYY := SumProducts(cs);
      if n == 1 {
        covMatrix := NonFinite;
      } else {
        var k := (n - 1) as real;
        var m := Matrix2(covXX / k, covXY / k, covXY / k, covYY / k);
        assert m == Covariance(cs);
        covMatrix := Finite(m);
      }
      currentStep := 4;
    }

    /** calculateEigenvectors: the closed-form eigenvalues of the 2x2 matrix, the first
        eigenvector from the first eigenvalue, the second turned a quarter turn from it. */
    method CalculateEigenvectors()
      requires Valid()
      modifies this
      ensures Valid() && State() == EigenCalculated(sqrt, old(State()))
    {
      match covMatrix {
      case Absent =>
        return;
      case NonFinite =>
        eigen := NonFinite;
      case Finite(m) =>
        eigen := Finite(Decompose(sqrt, m));
        DecomposeKeepsInvariant(sqrt, m);
      }
      currentStep := 5;
    }

    /** projectAndReconstruct. */
    method ProjectAndReconstruct()
      requires Valid()
      modifies this
      ensures Valid() && State() == Projected(old(State()))
    {
      match eigen {
      case Absent =>
        return;
      case Finite(e) =>
        projectedPoints := Finite(Project(centeredPoints, e.v1));
      case NonFinite =>
        projectedPoints := if |centeredPoints| == 0 then Finite([]) else NonFinite;
      }
      currentStep := 6;
    }

    /** nextStep: advance, then run the stage for the new step. */
    method NextStep()
      requires Valid()
      modifies this
      ensures Valid() && State() == SteppedForward(sqrt, old(State()))
    {
      if currentStep < LastStep {
        currentStep := currentStep + 1;
        if currentStep == 2 {
          CalculateMean();
        } else if currentStep == 3 {
          CenterData();
        } else if currentStep == 4 {
          CalculateCovariance();
        } else if currentStep == 5 {
          CalculateEigenvectors();
        } else {
          ProjectAndReconstruct();
        }
      }
    }

    /** prevStep. */
    method PrevStep()
      requires Valid()
      modifies this
      ensures Valid() && State() == SteppedBack(old(State()))
    {
      if currentStep > 1 {
        currentStep := currentStep - 1;
      }
    }

    /** runFullPCA, with the timer-separated stages run back to back. */
    method RunFullPca()
      requires Valid()
      modifies this
      ensures Valid() && State() == FullPcaRun(sqrt, old(State()))
    {
      if |points| < 2 {
        return;
      }
      CalculateMean();
      CenterData();
      CalculateCovariance();
      CalculateEigenvectors();
      ProjectAndReconstruct();
    }
  }
}
