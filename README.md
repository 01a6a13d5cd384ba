# face_lab PCA core in Dafny

face_lab is a set of browser pages that teach principal component analysis (PCA). This
project models the PCA core of three of its pages and proves properties of the model.

- **The 2-D experiment** (`planets/planet101/main.js`, class `PCA2DExperiment`). The user
  places points on a canvas. They can add, delete, drag, undo and clear points. They then
  step through five stages:
  1. the mean;
  2. the centred data;
  3. the sample covariance matrix;
  4. its closed-form 2x2 eigen-decomposition;
  5. the projection of every centred point onto the first eigenvector.

  The page also shows the share of variance the first eigenvalue explains.
- **The 8x8 smiley lab** (`planets/planet102/script.js`, the `pcaData` object).
  - Lab 1: pick the mean face and the three pixels that vary most, then get a score.
  - Lab 2: set three eigen-face coefficients to approach a target expression. The page shows
    a similarity percentage, and 80% or more completes the lab.
  - Lab 3: choose a number of components k. The page shows the explained variance and the
    compression ratio, and "find optimal k" picks the least k that explains 85%.
  - Per-lab resets, a global reset and a completed-lab counter.
- **The landing page** (`script.js`). Its lab 1 is scored against an answer key, and its
  progress record and navigation badges follow from that score.

Modules:

| file | module | contents |
|---|---|---|
| `wrappers.dfy` | `Wrappers` | `Option` |
| `vectors.dfy` | `Vectors` | 2-D vectors, the square-root law, point distance, canvas/maths coordinates |
| `statistics.dfy` | `Statistics` | points, sums, mean, centring, covariance |
| `eigen.dfy` | `Eigen` | the page's 2x2 eigen-decomposition |
| `projection.dfy` | `Projections` | projection onto the first axis, explained variance |
| `experiment.dfy` | `Experiment2D` | the experiment's state, its events and the `PcaExperiment` class |
| `examples_2d.dfy` | `ExampleData` | the ten example points carried through the whole walkthrough |
| `pixels.dfy` | `PixelSelection` | the three-pixel selection and lab 1's scoring rule |
| `facegrid.dfy` | `FaceGrids` | 8x8 grids: the mean face, the synthesised face, the reconstruction error |
| `metrics.dfy` | `LabMetrics` | similarity, explained variance, compression ratio, optimal k |
| `smiley_lab.dfy` | `SmileyLab` | the smiley lab's state, its events and the `PcaLab` class |
| `landing.dfy` | `LandingPage` | the landing page's lab 1 record, progress and badges, and the `Page` class |

### How the model is built

- **Events.** Every event is first written as a pure function from one state of the object
  to the next. The class then performs the same event in place. Each method promises
  `Valid()` and `State() == Event(old(State()))`. Properties are proved as lemmas about the
  event functions.
- **Loops.** Each loop of the source is a method with loop invariants, proved against a
  recursive specification function. Examples are `SumProducts`, `FindNearestPoint`,
  `CalculateMeanFace` and `FindOptimalK`.
- **Square root.** `Math.sqrt` is a parameter `sqrt: real -> real`. `IsSqrt(sqrt)` constrains
  it: for every x >= 0, `sqrt(x) >= 0` and `sqrt(x) * sqrt(x) == x`.
- **NaN results.** A division by zero that JavaScript turns into NaN or Infinity is the value
  `NonFinite` of `Derived<T> = Absent | Finite(value) | NonFinite`. This happens when the
  covariance of a single point is computed: the page's only guard is a non-empty centred
  list, so it divides by n - 1 = 0.
- **Quirks kept as the code has them.**
  - `resetCalculations` leaves `covMatrix` in place. An edit followed by "next step" can
    therefore compute eigenvectors of the old matrix (`StaleCovarianceAfterEdit`).
  - A drag moves a point without resetting anything, so the stored mean goes stale
    (`DragLeavesMeanStale`).
  - With b = 0 the first eigenvector is (1, 0) even when d > a. It is then the eigenvector
    of the *smaller* eigenvalue (`DiagonalSwapped`).
  - `nextStep` raises the step before running the stage. A refused stage still advances
    (`NextStepAlwaysAdvances`).
  - In lab 2, choosing a target does not refresh the shown similarity; only a slider input
    does (`TargetSelected`). All sliders at 0 already reach 80% for every target
    (`ZeroSlidersPassEveryTarget`).
  - On the landing page, a mean-face click before the pixel grid is drawn creates a record
    without a pixel list. Pixel clicks then fail, and a submission is refused
    (`ChoiceBeforeGridBlocksPixels`).
- **Example data.** The ten example points of `addExamplePoints` have mean (-0.4, 0.4)
  (`ExampleMean`).

## Model

| member | source | states |
|---|---|---|
| Vectors.Distance | planets/planet101/main.js:253-255 | getDistance is non-negative and its square is the squared Euclidean distance |
| Vectors.WithinPickRadius | planets/planet101/main.js:229-236 | a distance below the 0.5 pick radius is the same as a squared distance below 0.25 |
| Vectors.SqrtLess | planets/planet101/main.js:238-251 | comparing square roots of distances orders them as the squared distances |
| Vectors.ViewportFor | planets/planet101/main.js:56-69 | a canvas of positive size has positive scales, and the maths origin maps to the canvas centre |
| Vectors.CanvasToMath | planets/planet101/main.js:101-106 | canvasToMath inverts mathToCanvas: mapping its result back gives the canvas point |
| Vectors.MathToCanvas | planets/planet101/main.js:108-112 | mathToCanvas inverts canvasToMath: mapping its result back gives the maths point |
| Vectors.RotatePerpendicular | planets/planet101/main.js:385-389 | the second eigenvector (-v1.y, v1.x) is orthogonal to v1 and as long |
| Statistics.SumXX | planets/planet101/main.js:333-340 | the running sum of x*x is non-negative |
| Statistics.SumYY | planets/planet101/main.js:333-340 | the running sum of y*y is non-negative |
| Statistics.MeanOfSingle | planets/planet101/main.js:287-308 | the mean of one point is that point |
| Statistics.Center | planets/planet101/main.js:310-326 | centring keeps the length and every id, and subtracts the mean from each position |
| Statistics.CenterSums | planets/planet101/main.js:310-326 | centring lowers each coordinate sum by n times the subtracted point |
| Statistics.CenteredSumsToZero | planets/planet101/main.js:287-326 | centred data sums to zero and has mean (0, 0) |
| Statistics.CrossTermNonNegative | planets/planet101/main.js:333-340 | the quadratic form of the scatter sums is non-negative |
| Statistics.CauchySchwarz | planets/planet101/main.js:333-340 | Sxy² <= Sxx·Syy for the page's sums |
| Statistics.ScaledDeterminant | planets/planet101/main.js:342-345 | dividing the sums by n - 1 keeps the determinant non-negative |
| Statistics.Covariance | planets/planet101/main.js:328-345 | the covariance of two or more centred points is symmetric positive semidefinite |
| Eigen.DiscriminantIdentity | planets/planet101/main.js:361-366 | trace² - 4·det equals (a-d)² + 4b², so its square root exists |
| Eigen.Root | planets/planet101/main.js:366 | the discriminant's square root is non-negative |
| Eigen.RootSquared | planets/planet101/main.js:366 | the discriminant's square root squares back to the discriminant |
| Eigen.FirstEigenvectorUnit | planets/planet101/main.js:375-380 | the normalised (1, (λ-a)/b) has length 1 |
| Eigen.UnitDirection | planets/planet101/main.js:378-380 | the norm 1 + t² is positive, so normalising never divides by zero |
| Eigen.Decompose | planets/planet101/main.js:354-392 | λ1 >= λ2, they are the page's two roots, and they sum to the trace |
| Eigen.DecomposeOrthonormal | planets/planet101/main.js:374-389 | the two eigenvectors are unit length and orthogonal |
| Eigen.CharacteristicEquation | planets/planet101/main.js:361-370 | both eigenvalues are roots of λ² - trace·λ + det and multiply to det |
| Eigen.DirectionIsEigenvector | planets/planet101/main.js:375-378 | for b ≠ 0, (1, (λ-a)/b) is an eigenvector of every root λ |
| Eigen.MulVecScale | planets/planet101/main.js:378-380 | normalising does not change the eigenvector property |
| Eigen.NormalisedDirectionIsEigenvector | planets/planet101/main.js:375-380 | the normalised direction is an eigenvector of λ |
| Eigen.FirstEigenvectorEquation | planets/planet101/main.js:375-380 | for b ≠ 0, C·v1 = λ1·v1 with v1 a unit vector |
| Eigen.SecondEigenvectorEquation | planets/planet101/main.js:385-389 | for b ≠ 0, the rotated vector satisfies C·v2 = λ2·v2 |
| Eigen.RotatedEigenvector | planets/planet101/main.js:385-389 | rotating an eigenvector of a symmetric 2x2 matrix gives an eigenvector of the other eigenvalue |
| Eigen.DiagonalFirstVector | planets/planet101/main.js:381-383 | with b = 0, v1 is (1, 0) and v2 is (0, 1) |
| Eigen.DiagonalOrdered | planets/planet101/main.js:381-383 | with b = 0 and a >= d, λ1 = a and (1, 0) is its eigenvector |
| Eigen.DiagonalSwapped | planets/planet101/main.js:381-383 | with b = 0 and d > a, λ1 = d while (1, 0) is an eigenvector of a, not of d |
| Eigen.DiagonalRoot | planets/planet101/main.js:366 | with b = 0 the discriminant's root is abs(a - d) |
| Eigen.EigenvaluesNonNegative | planets/planet101/main.js:364-370 | a positive semidefinite matrix gets λ2 >= 0 |
| Eigen.DecomposeKeepsInvariant | planets/planet101/main.js:354-392 | a covariance matrix's decomposition has λ1 >= λ2 >= 0, a unit v1, and v2 = v1 rotated |
| Projections.Project | planets/planet101/main.js:400-423 | each centred point keeps its place as `original`, and its reconstruction is coefficient·v1 |
| Projections.ResidualOrthogonal | planets/planet101/main.js:408-418 | for a unit v, a point minus its reconstruction is orthogonal to v |
| Projections.ProjectionResiduals | planets/planet101/main.js:400-423 | every projection's coefficient is the dot product, and every residual is orthogonal to v1 |
| Projections.TwoAxisReconstruction | planets/planet101/main.js:400-423 | the projections on v1 and on v1 rotated add back up to the point |
| Projections.ExplainedVarianceBounds | planets/planet101/main.js:654-658 | the explained variance lies in [0, 100], is >= 50 when λ1 > 0, and is 0 when λ1 = 0 |
| Experiment2D.Nearest | planets/planet101/main.js:238-251 | findNearestPoint gives none exactly for no points, otherwise the first point at least distance |
| Experiment2D.RemoveId | planets/planet101/main.js:232 | the filter keeps exactly the points with another id |
| Experiment2D.PointsAddedAppends | planets/planet101/main.js:181-189 | adding points one by one appends them and leaves the calculations reset |
| Experiment2D.ExamplesLoaded | planets/planet101/main.js:37-54 | after init, the state is the initial one holding the ten example points, and it is consistent |
| Experiment2D.StagesKeepConsistent | planets/planet101/main.js:287-429 | every stage, nextStep and prevStep keep the state consistent |
| Experiment2D.EditsKeepConsistent | planets/planet101/main.js:181-285 | every point edit and resetCalculations keep the state consistent |
| Experiment2D.NextStepAlwaysAdvances | planets/planet101/main.js:942-964 | nextStep below step 6 always advances one step, even when the stage refuses; at 6 nothing changes |
| Experiment2D.StaleCovarianceAfterEdit | planets/planet101/main.js:275-285 | after an edit, eigenvectors come from the covariance matrix computed before the edit |
| Experiment2D.SumsAfterUpdate | planets/planet101/main.js:146-179 | moving one point changes the coordinate sums by exactly its displacement |
| Experiment2D.MeanAfterMove | planets/planet101/main.js:146-179 | moving a point horizontally changes the mean |
| Experiment2D.DragLeavesMeanStale | planets/planet101/main.js:146-179 | a drag moves the picked point, keeps every derived field, and leaves a mean that is no longer the points' mean |
| Experiment2D.RemoveUniqueId | planets/planet101/main.js:229-236 | with unique ids, deleting by id removes exactly the picked entry |
| Experiment2D.KeepAllOtherIds | planets/planet101/main.js:232 | filtering an id nobody has keeps the list unchanged |
| Experiment2D.SinglePointPipeline | planets/planet101/main.js:328-345 | one centred point gives a NaN covariance, NaN eigenpairs and NaN projections, and 0% is shown |
| Experiment2D.FullPcaStages | planets/planet101/main.js:431-452 | runFullPCA with two or more points yields the mean, the centred data, their covariance, its decomposition and the projections |
| Experiment2D.FullPcaResult | planets/planet101/main.js:431-452 | after runFullPCA the centred mean is 0, the eigenpairs keep the invariant, residuals are orthogonal to v1, and 0-100% is shown (>= 50% when λ1 > 0) |
| Experiment2D.ShownExplainedVarianceBounds | planets/planet101/main.js:646-662 | the variance read-out is refreshed exactly when eigenvalues exist, and the value written lies in [0, 100] |
| Experiment2D.SumCoordinates | planets/planet101/main.js:293-297 | the summing loop computes the coordinate sums |
| Experiment2D.SumProducts | planets/planet101/main.js:333-340 | the covariance loop computes Sxx, Sxy and Syy |
| Experiment2D.PcaExperiment.constructor | planets/planet101/main.js:7-54 | construction and init load the ten example points into the initial state |
| Experiment2D.PcaExperiment.ResetCalculations | planets/planet101/main.js:275-285 | clears every derived field except covMatrix, back to step 1 |
| Experiment2D.PcaExperiment.AddPoint | planets/planet101/main.js:181-189 | appends the point and resets the calculations |
| Experiment2D.PcaExperiment.FindNearestPoint | planets/planet101/main.js:238-251 | the loop returns the first point at least distance, and none for no points |
| Experiment2D.PcaExperiment.DeleteNearestPoint | planets/planet101/main.js:229-236 | deletes the nearest point when it lies within 0.5, otherwise changes nothing |
| Experiment2D.PcaExperiment.DragNearestPoint | planets/planet101/main.js:146-179 | moves the nearest point within 0.5 to the drop position and resets nothing |
| Experiment2D.PcaExperiment.UndoLastPoint | planets/planet101/main.js:265-273 | drops the last point and resets, or does nothing with no points |
| Experiment2D.PcaExperiment.ClearAllPoints | planets/planet101/main.js:257-263 | empties the points and resets |
| Experiment2D.PcaExperiment.CalculateMean | planets/planet101/main.js:287-308 | refused with no points; otherwise stores the mean and moves to step 2 |
| Experiment2D.PcaExperiment.CenterData | planets/planet101/main.js:310-326 | refused with no mean; otherwise stores the centred points and moves to step 3 |
| Experiment2D.PcaExperiment.CalculateCovariance | planets/planet101/main.js:328-352 | refused with no centred points; otherwise stores the covariance (NaN for one point) and moves to step 4 |
| Experiment2D.PcaExperiment.CalculateEigenvectors | planets/planet101/main.js:354-398 | refused with no matrix; otherwise stores the decomposition and moves to step 5 |
| Experiment2D.PcaExperiment.ProjectAndReconstruct | planets/planet101/main.js:400-429 | refused with no eigenvectors; otherwise stores the projections and moves to step 6 |
| Experiment2D.PcaExperiment.NextStep | planets/planet101/main.js:942-964 | raises the step, then runs that step's stage |
| Experiment2D.PcaExperiment.PrevStep | planets/planet101/main.js:966-973 | lowers the step above 1 and keeps all data |
| Experiment2D.PcaExperiment.RunFullPca | planets/planet101/main.js:431-452 | refused below two points; otherwise runs the five stages in order |
| ExampleData.ExampleMean | planets/planet101/main.js:213-227 | the ten example points have mean (-0.4, 0.4) |
| ExampleData.ExampleCovariance | planets/planet101/main.js:213-227 | their covariance is [[28/5, 56/15], [56/15, 28/5]] |
| ExampleData.ExampleWalkthrough | planets/planet101/main.js:37-54 | the full walkthrough on the example points gives λ1 = 28/3, λ2 = 28/15 and shows 83.3% |
| PixelSelection.IndexOf | planets/planet102/script.js:527-529 | findIndex returns -1 exactly when the pixel is absent, otherwise its first index |
| PixelSelection.ToggleKeepsWellFormed | planets/planet102/script.js:522-550 | a click keeps at most three distinct pixels; it selects the pixel iff it was unselected and there was room; other pixels are unaffected |
| PixelSelection.ToggleTwiceRestores | planets/planet102/script.js:531-545 | two clicks on a new pixel restore the selection; a click on a selected pixel removes one entry; a full selection ignores new pixels |
| PixelSelection.MatchCount | planets/planet102/script.js:651-657 | the matched count never exceeds the selection's length |
| PixelSelection.MatchCountAll | planets/planet102/script.js:651-657 | the count equals the selection's length exactly when every selected pixel is in the key |
| PixelSelection.CountMatches | planets/planet102/script.js:651-657 | the forEach/some loop computes the matched count |
| PixelSelection.PixelScoreTable | planets/planet102/script.js:659-660 | floor(m/3·50) is 0, 16, 33 or 50 |
| PixelSelection.Lab1ScoreBounds | planets/planet102/script.js:641-660 | the score lies in [0, 100] and is 100 exactly for the right face and three matches |
| FaceGrids.CellSumBounds | planets/planet102/script.js:155-170 | a cell's sum over 0/1 patterns lies between 0 and the number of patterns |
| FaceGrids.MeanCellInUnit | planets/planet102/script.js:155-170 | every cell of the mean face lies in [0, 1] |
| FaceGrids.SumCell | planets/planet102/script.js:161-164 | the inner forEach sums one cell over the patterns |
| FaceGrids.CalculateMeanFace | planets/planet102/script.js:155-170 | the result is 8x8 and each cell is the cell sum divided by the number of patterns |
| FaceGrids.ClampBounds | planets/planet102/script.js:874 | max(0, min(1, v)) lies in [0, 1], is v exactly on [0, 1], and saturates outside |
| FaceGrids.TargetCellProperties | planets/planet102/script.js:856-880 | every synthesised cell lies in [0, 1]; zero coefficients give back a mean face in [0, 1]; without eigen-faces the cell is the clamped mean |
| FaceGrids.GenerateTargetFace | planets/planet102/script.js:856-880 | the result is 8x8 with each cell the clamped mean plus the present eigen-faces' contributions |
| FaceGrids.AbsDiffSum | planets/planet102/script.js:1229-1235 | the summed absolute difference of two equal-length lists (a row of the error, or target against sliders) is non-negative |
| FaceGrids.GridError | planets/planet102/script.js:1229-1235 | the grid's summed absolute error is non-negative |
| FaceGrids.AbsDiffSumZero | planets/planet102/script.js:1229-1235 | the summed absolute difference is 0 exactly when the two lists are equal (rows, or sliders and target) |
| FaceGrids.GridErrorZero | planets/planet102/script.js:1229-1235 | the grid error is 0 exactly when the grids are equal |
| FaceGrids.AbsDiffSumBound | planets/planet102/script.js:1229-1235 | for values in [0, 1], a row's error is at most its length |
| FaceGrids.GridErrorBound | planets/planet102/script.js:1229-1235 | for grids in [0, 1], k rows give an error of at most 8k |
| FaceGrids.AverageErrorProperties | planets/planet102/script.js:1215-1244 | the average error is >= 0, is 0 exactly for equal grids, and is <= 1 for grids in [0, 1] |
| FaceGrids.SumRowError | planets/planet102/script.js:1230-1235 | the inner loop sums one row's absolute errors |
| FaceGrids.UpdateDifference | planets/planet102/script.js:1215-1244 | the nested loops compute the average absolute error over the 64 cells |
| LabMetrics.RoundProperties | planets/planet102/script.js:936 | Math.round is monotone and maps [0, 100] into 0..100 |
| LabMetrics.TargetCoefficients | planets/planet102/script.js:908-922 | every target, including the default, has three coefficients |
| LabMetrics.CoefficientDistance | planets/planet102/script.js:924-928 | the loop computes the summed absolute difference |
| LabMetrics.SimilarityProperties | planets/planet102/script.js:931-937 | similarity and error lie in [0, 1] and add up to 1; the percentage lies in 0..100; similarity is 1 exactly for the target's coefficients |
| LabMetrics.SynthesisAcceptedIff | planets/planet102/script.js:947-959 | the shown percentage reaches 80 exactly when the summed difference is at most 0.615 |
| LabMetrics.ExplainedProperties | planets/planet102/script.js:1251-1256 | the explained sum lies between 0 and the total, grows with k, and is the total once k covers every eigenvalue |
| LabMetrics.VarianceRatioProperties | planets/planet102/script.js:1258 | the ratio lies in [0, 1], grows with k, and is 1 once k covers every eigenvalue of a positive total |
| LabMetrics.VarianceSums | planets/planet102/script.js:1247-1256 | the loop computes the explained and the total variance |
| LabMetrics.CompressionProperties | planets/planet102/script.js:1261-1263 | the compression ratio falls as k grows and lies in [77.5, 80) for k in 1..8 |
| LabMetrics.UpdateStats | planets/planet102/script.js:1246-1269 | shows the rounded variance percentage and the compression ratio for k |
| LabMetrics.FirstReachingIsLeast | planets/planet102/script.js:1273-1289 | the search from a given k returns the least k up to 8 that reaches 85%, or the default 3 |
| LabMetrics.OptimalKIsLeast | planets/planet102/script.js:1271-1300 | the optimal k is the least k in 1..8 reaching 85%, or 3 when none does; for at most eight non-negative eigenvalues of positive total it lies in 1..8 and explains at least 85% |
| LabMetrics.LabOptimalK | planets/planet102/script.js:146 | for the lab's eigenvalues the optimal k is 3, explaining exactly 85% |
| LabMetrics.FindOptimalK | planets/planet102/script.js:1271-1289 | the loop with its early break returns the least k that reaches 85% |
| SmileyLab.CompletedCount | planets/planet102/script.js:244-254 | the count lies in 0..3, is 3 exactly when all labs are completed, and 0 exactly when none is |
| SmileyLab.Lab1OutcomeProperties | planets/planet102/script.js:617-672 | a submission is scored exactly with a truthy face and three pixels; the score lies in [0, 100] and is 100 exactly for face 3 and the three key pixels |
| SmileyLab.CoefficientSet | planets/planet102/script.js:761-777 | a slider input keeps three coefficients |
| SmileyLab.Lab2Reset | planets/planet102/script.js:1019-1034 | the reset keeps three coefficients |
| SmileyLab.SubmitAfterInput | planets/planet102/script.js:901-959 | with a target active, a slider input then a submission completes lab 2 exactly when the sliders are within 0.615 of the target |
| SmileyLab.ZeroSlidersPassEveryTarget | planets/planet102/script.js:1019-1034 | after a lab 2 reset with any target active, a submission completes the lab |
| SmileyLab.ZeroDistance | planets/planet102/script.js:908-922 | every target's coefficients are within 0.6 of all-zero sliders |
| SmileyLab.OptimalKShown | planets/planet102/script.js:1271-1300 | find-optimal-k moves the slider to 3, shows 85% and completes lab 3 |
| SmileyLab.AllResetClearsProgress | planets/planet102/script.js:285-311 | a confirmed reset leaves no lab completed and no answer chosen; a cancelled one changes nothing |
| SmileyLab.Lab1EventsKeepConsistent | planets/planet102/script.js:503-560 | lab 1's events keep at most three distinct pixels and three coefficients |
| SmileyLab.OtherEventsKeepConsistent | planets/planet102/script.js:748-1313 | labs 2 and 3's events and the tab openings keep the state consistent |
| SmileyLab.PcaLab.constructor | planets/planet102/script.js:1-152 | page load stores the mean face of the patterns, the eigen-faces and eigenvalues, and opens lab 1 with nothing completed |
| SmileyLab.PcaLab.Progress | planets/planet102/script.js:244-254 | updateProgress counts the completed labs |
| SmileyLab.PcaLab.SelectMeanFace | planets/planet102/script.js:505-518 | stores the chosen answer |
| SmileyLab.PcaLab.TogglePixel | planets/planet102/script.js:522-550 | applies the toggle rule to the selection |
| SmileyLab.PcaLab.ClearSelection | planets/planet102/script.js:553-560 | empties the selection |
| SmileyLab.PcaLab.SubmitLab1Answers | planets/planet102/script.js:617-672 | returns the score of an accepted submission and marks lab 1 completed; a refused one changes nothing |
| SmileyLab.PcaLab.ResetLab1 | planets/planet102/script.js:724-745 | clears the answers and lab 1's completion |
| SmileyLab.PcaLab.UpdateSimilarity | planets/planet102/script.js:901-945 | with a target active, shows the rounded similarity of the sliders; otherwise changes nothing |
| SmileyLab.PcaLab.SelectTarget | planets/planet102/script.js:781-792 | makes the target active and leaves the shown similarity as it was |
| SmileyLab.PcaLab.SetCoefficient | planets/planet102/script.js:761-777 | sets one slider and refreshes the similarity |
| SmileyLab.PcaLab.SubmitSynthesis | planets/planet102/script.js:947-959 | completes lab 2 when the shown similarity is at least 80 |
| SmileyLab.PcaLab.ResetLab2 | planets/planet102/script.js:1019-1034 | sets the sliders to 0, refreshes the similarity and clears lab 2's completion |
| SmileyLab.PcaLab.SetComponentCount | planets/planet102/script.js:1064-1068 | sets k and shows its statistics |
| SmileyLab.PcaLab.FindOptimalComponents | planets/planet102/script.js:1271-1300 | sets k to the optimal k, shows its statistics and completes lab 3 |
| SmileyLab.PcaLab.ResetLab3 | planets/planet102/script.js:1306-1313 | sets k back to 3 and clears lab 3's completion |
| SmileyLab.PcaLab.OpenLab1 | planets/planet102/script.js:382-383 | marks lab 1 initialised |
| SmileyLab.PcaLab.OpenLab2 | planets/planet102/script.js:748-759 | marks lab 2 initialised and refreshes the similarity |
| SmileyLab.PcaLab.OpenLab3 | planets/planet102/script.js:1037-1048 | marks lab 3 initialised and shows the statistics for the current k |
| SmileyLab.PcaLab.ResetAll | planets/planet102/script.js:285-311 | after confirmation, clears the flags and answers and resets each opened lab |
| LandingPage.SubmissionOutcomeProperties | script.js:592-656 | a submission is scored exactly with lab1Data, a truthy choice and at least one pixel; the score lies in [0, 100] and is 100 exactly for the key's face and three pixels all in the key |
| LandingPage.ChoiceBeforeGridBlocksPixels | script.js:445-512 | a mean-face click before the grid is rendered leaves pixel clicks without effect and the submission refused |
| LandingPage.BadgeProperties | script.js:1142-1155 | a check exactly for a completed lab, a percentage in 1..100 exactly for a started one, blank otherwise |
| LandingPage.SubmitShowsCheck | script.js:650-653 | a scored submission turns lab 1's badge into a check and leaves the other labs alone |
| LandingPage.InputsKeepConsistent | script.js:445-537 | lab 1's inputs and resetLab1 keep the selection well formed |
| LandingPage.SubmitKeepsConsistent | script.js:592-656 | a submission records a score in [0, 100] |
| LandingPage.Page.constructor | script.js:5-9 | the page starts with no lab1Data and every lab at false/0/0 |
| LandingPage.Page.SelectMeanFace | script.js:445-457 | creates lab1Data when missing and stores the choice |
| LandingPage.Page.RenderPixelSelector | script.js:460-486 | creates lab1Data when missing and empties the selection |
| LandingPage.Page.TogglePixelSelection | script.js:489-512 | applies the toggle rule where a list exists, otherwise changes nothing |
| LandingPage.Page.ClearSelection | script.js:523-537 | empties the selection where lab1Data exists |
| LandingPage.Page.SubmitLab1 | script.js:592-656 | returns the score of an accepted submission and records it as completed at 100% |
| LandingPage.Page.ResetLab1 | script.js:702-726 | replaces lab1Data with an empty record and keeps the progress |

## Left out

- Drawing, the DOM, notifications and animations are not modelled. The canvas size is a
  parameter of `ViewportFor`.
- `runFullPCA` spaces its stages 800 ms apart with timers. `RunFullPca` runs them back to
  back.
- Clock and random values are parameters: the ids from `Date.now() + Math.random()`
  (`ExamplesLoaded`, `AddPoint`). `addRandomPoints` and `addGridPoints` are not modelled.
- `reconstructFace` draws random coefficients, so the reconstructed face in lab 3 is not
  modelled. `UpdateDifference` takes any two grids.
- `autoAdjust` moves the sliders on a timer. Only its end point (sliders at the target) is
  covered, by `SimilarityProperties`: the similarity is 1 exactly when the sliders equal the
  target.
- The page text is not modelled. `ShownExplainedVariance` returning `None` means updateUI
  leaves the variance text alone, so an earlier figure stays on screen after a reset.
- `Math.sqrt` is the parameter `sqrt`, constrained only by the exact square-root law.
- Numbers are exact reals, not IEEE doubles, so floating-point rounding is not modelled.
  - With doubles, 0.45 + 0.25 + 0.15 need not reach 0.85 exactly. `LabOptimalK` holds for
    exact arithmetic.
  - `Round` is Math.round on reals, floor(x + 0.5).
  - toFixed formatting is not modelled.
- `DragNearestPoint`: a drag is modelled as one move, from the press position to the final
  position. The intermediate mousemove updates are not modelled.
- The smiley patterns (`initData`, lines 45-104) and the three eigen-face grids (lines
  109-143) are constructor parameters of `PcaLab`; their literal values are not written out.
- `FaceGrids.CalculateMeanFace` requires at least one pattern. The source always passes
  five.
- The starting values of the page's form controls are constructor parameters of `PcaLab`:
  the sliders, the similarity text, the k slider and the statistics texts. The HTML is not
  part of this model.
- `SMILEY_DATA` is an `AnswerKey` parameter of `LandingPage.Page.SubmitLab1`. Its defining
  file is not part of this model.
- Lab 2's shown similarity text is an integer. `submitSynthesis`'s parseInt of that text
  is its identity.
- Lab 2's synthesised and target grids are `FaceGrids.GenerateTargetFace` on their own.
  The class does not store the rendered grids.
- The landing page: localStorage loading and saving, the other two labs and the page
  navigation are not modelled.
- Line 886 of `planets/planet102/script.js` lacks a closing parenthesis. A browser would
  reject the whole script. The model follows the evidently intended code.
- The Python files (`virtual_lab.py`, `src/`, `app_simple.py`) are outside the modelled core.
