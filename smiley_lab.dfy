/** The pcaData object of the 8x8 smiley lab (planets/planet102/script.js) and the events
    that change it: the three labs' inputs and submissions, their resets, the global reset
    and the completed-lab count.

    As for the 2-D experiment, each event is first a function from one state of the lab's
    changing fields to the next, and the class performs the event in place and promises
    that its fields afterwards are that function of its fields before. The values the page
    keeps in form controls (the three coefficient sliders, the active target button, the
    k slider and the texts read back from the page) are fields of the state as well. */
module SmileyLab {
  import opened Wrappers
  import opened PixelSelection
  import opened FaceGrids
  import opened LabMetrics

  /** Lab 1's answer key: smiley 3 is the mean face, and the three pixels that vary most. */
  const CorrectMeanFace: int := 3
  const CorrectPixels: seq<Pixel> := [Pixel(3, 3), Pixel(3, 4), Pixel(2, 2)]

  /** The fields of pcaData that events change, and the form controls the labs read. */
  datatype LabState = LabState(
    lab1Completed: bool,
    lab2Completed: bool,
    lab3Completed: bool,
    lab1Initialized: bool,
    lab2Initialized: bool,
    lab3Initialized: bool,
    selectedMeanFace: Option<int>,
    selectedPixels: seq<Pixel>,
    target: Option<TargetExpression>,
    coefficients: seq<real>,
    shownSimilarity: int,
    componentCount: int,
    shownVariancePercent: int,
    shownCompression: real)

  /** What every reachable state satisfies. */
  predicate LabConsistent(s: LabState)
  {
    WellFormed(s.selectedPixels) && |s.coefficients| == 3
  }

  // ---------------------------------------------------------------- progress

  /** updateProgress: how many of the three labs are completed. */
  function CompletedCount(s: LabState): (n: int)
    ensures 0 <= n <= 3
    ensures n == 3 <==> s.lab1Completed && s.lab2Completed && s.lab3Completed
    ensures n == 0 <==> !s.lab1Completed && !s.lab2Completed && !s.lab3Completed
  {
    (if s.lab1Completed then 1 else 0) + (if s.lab2Completed then 1 else 0)
      + (if s.lab3Completed then 1 else 0)
  }

  // ---------------------------------------------------------------- lab 1

  /** A click on answer button n. */
  function MeanFaceSelected(s: LabState, answer: int): LabState
  {
    s.(selectedMeanFace := Some(answer))
  }

  /** A click on the pixel at p. */
  function PixelToggled(s: LabState, p: Pixel): LabState
  {
    s.(selectedPixels := Toggled(s.selectedPixels, p))
  }

  /** The clear-selection button. */
  function SelectionCleared(s: LabState): LabState
  {
    s.(selectedPixels := [])
  }

  /** submitLab1Answers' score, or None when it stops early: no mean face chosen, or a
      selection of other than three pixels. */
  function Lab1Outcome(s: LabState): Option<int>
  {
    if !Chosen(s.selectedMeanFace) || |s.selectedPixels| != 3 then None
    else Some(Lab1Score(s.selectedMeanFace.value == CorrectMeanFace,
                        MatchCount(s.selectedPixels, CorrectPixels)))
  }

  /** A submission is scored exactly when a face is chosen and three pixels are selected;
      the score lies in [0, 100] and is 100 exactly for smiley 3 and the three key pixels. */
  lemma Lab1OutcomeProperties(s: LabState)
    ensures Lab1Outcome(s).Some? <==> Chosen(s.selectedMeanFace) && |s.selectedPixels| == 3
    ensures Lab1Outcome(s).Some? ==> 0 <= Lab1Outcome(s).value <= 100
    ensures Lab1Outcome(s).Some? ==>
              (Lab1Outcome(s).value == 100 <==>
                 s.selectedMeanFace == Some(CorrectMeanFace)
                 && forall p :: p in s.selectedPixels ==> p in CorrectPixels)
  {
    if Lab1Outcome(s).Some? {
      var matched := MatchCount(s.selectedPixels, CorrectPixels);
      Lab1ScoreBounds(s.selectedMeanFace.value == CorrectMeanFace, matched);
      MatchCountAll(s.selectedPixels, CorrectPixels);
    }
  }

  /** submitLab1Answers: a scored submission marks lab 1 completed; a rejected one changes
      nothing. */
  function Lab1Submitted(s: LabState): LabState
  {
    if Lab1Outcome(s).Some? then s.(lab1Completed := true) else s
  }

  /** resetLab1. */
  function Lab1Reset(s: LabState): LabState
  {
    s.(selectedMeanFace := None, selectedPixels := [], lab1Completed := false)
  }

  // ---------------------------------------------------------------- lab 2

  /** updateSimilarity: with no active target button the shown similarity stays as it was;
      otherwise it is the rounded similarity of the sliders to the target's coefficients. */
  function SimilarityShown(s: LabState): int
    requires |s.coefficients| == 3
  {
    match s.target
    case None => s.shownSimilarity
    case Some(t) => SimilarityPercent(TargetCoefficients(t), s.coefficients)
  }

  /** A click on a target button makes it the active one; the shown similarity is only
      recomputed at the next slider input. */
  function TargetSelected(s: LabState, t: TargetExpression): LabState
  {
    s.(target := Some(t))
  }

  /** An input event on slider i (0, 1 or 2): its value changes and updateSynthesis reruns. */
  function CoefficientSet(s: LabState, i: int, value: real): (r: LabState)
    requires |s.coefficients| == 3 && 0 <= i < 3
    ensures |r.coefficients| == 3
  {
    var moved := s.(coefficients := s.coefficients[i := value]);
    moved.(shownSimilarity := SimilarityShown(moved))
  }

  /** submitSynthesis: a shown similarity of at least 80% completes lab 2. */
  function SynthesisSubmitted(s: LabState): LabState
  {
    if SynthesisAccepted(s.shownSimilarity) then s.(lab2Completed := true) else s
  }

  /** resetLab2: all three sliders to 0, their input events, and lab 2 not completed. */
  function Lab2Reset(s: LabState): (r: LabState)
    ensures |r.coefficients| == 3
  {
    var zeroed := s.(coefficients := [0.0, 0.0, 0.0], lab2Completed := false);
    zeroed.(shownSimilarity := SimilarityShown(zeroed))
  }

  /** Once a target is active, the shown similarity always reflects the sliders after an
      input, and submitting then completes lab 2 exactly when the sliders are within 0.615
      (summed absolute difference) of the target's coefficients. */
  lemma SubmitAfterInput(s: LabState, i: int, value: real)
    requires |s.coefficients| == 3 && 0 <= i < 3 && s.target.Some?
    ensures var r := SynthesisSubmitted(CoefficientSet(s, i, value));
            var cs := s.coefficients[i := value];
            r.lab2Completed <==>
              s.lab2Completed || AbsDiffSum(TargetCoefficients(s.target.value), cs) <= 0.615
  {
    SynthesisAcceptedIff(TargetCoefficients(s.target.value), s.coefficients[i := value]);
  }

  /** All three sliders at 0 are already close enough to every listed target: after a
      reset of lab 2 with any target active, a submission completes the lab. */
  lemma ZeroSlidersPassEveryTarget(s: LabState)
    requires s.target.Some?
    ensures SynthesisSubmitted(Lab2Reset(s)).lab2Completed
  {
    var cs := TargetCoefficients(s.target.value);
    var zero := [0.0, 0.0, 0.0];
    SynthesisAcceptedIff(cs, zero);
    ZeroDistance(cs);
  }

  /** The summed absolute value of a target's coefficients is at most 0.6. */
  lemma ZeroDistance(cs: seq<real>)
    requires cs == TargetCoefficients(SlightlyHappy) || cs == TargetCoefficients(SlightlySad)
             || cs == TargetCoefficients(Surprised) || cs == TargetCoefficients(Unlisted)
    ensures AbsDiffSum(cs, [0.0, 0.0, 0.0]) <= 0.6
  {
    var zero := [0.0, 0.0, 0.0];
    DistanceOfThree(cs, zero);
  }

  /** The distance over three coefficients, written out. */
  lemma DistanceOfThree(t: seq<real>, c: seq<real>)
    requires |t| == 3 && |c| == 3
    ensures AbsDiffSum(t, c) == Abs(t[0] - c[0]) + Abs(t[1] - c[1])
                              + Abs(t[2] - c[2])
  {
    assert t[..2][..1] == t[..1] && c[..2][..1] == c[..1];
    assert t[..1][..0] == [] && c[..1][..0] == [];
    assert AbsDiffSum(t[..1], c[..1]) == Abs(t[0] - c[0]);
    assert AbsDiffSum(t[..2], c[..2]) == AbsDiffSum(t[..1], c[..1]) + Abs(t[1] - c[1]);
  }

  // ---------------------------------------------------------------- lab 3

  /** An input event on the k slider: updateReconstruction reads k and updateStats shows the
      explained variance and the compression ratio for it. */
  function ComponentsSet(s: LabState, k: int): LabState
  {
    s.(componentCount := k,
       shownVariancePercent := Round(VarianceRatio(LabEigenvalues, k) * 100.0),
       shownCompression := CompressionRatio(k))
  }

  /** findOptimalK: the slider moves to the optimal k and lab 3 is completed. */
  function OptimalKFound(s: LabState): LabState
  {
    ComponentsSet(s, OptimalK(LabEigenvalues)).(lab3Completed := true)
  }

  /** With the lab's eigenvalues findOptimalK settles on three components, shows 85% of the
      variance explained and completes lab 3. */
  lemma OptimalKShown(s: LabState)
    ensures OptimalKFound(s).componentCount == 3
    ensures OptimalKFound(s).shownVariancePercent == 85
    ensures OptimalKFound(s).lab3Completed
  {
    LabOptimalK();
    assert 0.85 * 100.0 + 0.5 == 85.5;
  }

  /** resetLab3: the slider back to 3, its input event, and lab 3 not completed. */
  function Lab3Reset(s: LabState): LabState
  {
    ComponentsSet(s, 3).(lab3Completed := false)
  }

  // ---------------------------------------------------------------- tabs and resets

  /** initLab1. */
  function Lab1Opened(s: LabState): LabState
  {
    s.(lab1Initialized := true)
  }

  /** initLab2, whose closing updateSynthesis refreshes the similarity. */
  function Lab2Opened(s: LabState): LabState
    requires |s.coefficients| == 3
  {
    var shown := s.(lab2Initialized := true);
    shown.(shownSimilarity := SimilarityShown(shown))
  }

  /** initLab3, whose closing updateReconstruction refreshes the statistics. */
  function Lab3Opened(s: LabState): LabState
  {
    ComponentsSet(s.(lab3Initialized := true), s.componentCount)
  }

  /** resetAll: after the confirmation the three completion flags and lab 1's answers are
      cleared, then each lab that has been opened is reset. */
  function AllReset(s: LabState, confirmed: bool): LabState
    requires |s.coefficients| == 3
  {
    if !confirmed then s
    else
      var cleared := s.(lab1Completed := false, lab2Completed := false, lab3Completed := false,
                        selectedMeanFace := None, selectedPixels := []);
      var r1 := if s.lab1Initialized then Lab1Reset(cleared) else cleared;
      var r2 := if s.lab2Initialized then Lab2Reset(r1) else r1;
      if s.lab3Initialized then Lab3Reset(r2) else r2
  }

  /** A confirmed reset leaves no lab completed and no answer chosen, whichever labs were
      opened; a cancelled one changes nothing. */
  lemma AllResetClearsProgress(s: LabState, confirmed: bool)
    requires LabConsistent(s)
    ensures confirmed ==> CompletedCount(AllReset(s, true)) == 0
    ensures confirmed ==> AllReset(s, true).selectedMeanFace == None
    ensures confirmed ==> AllReset(s, true).selectedPixels == []
    ensures confirmed ==> LabConsistent(AllReset(s, true))
    ensures !confirmed ==> AllReset(s, confirmed) == s
    ensures AllReset(s, confirmed).lab1Initialized == s.lab1Initialized
  {
  }

  /** Every lab 1 event keeps a state consistent. */
  lemma Lab1EventsKeepConsistent(s: LabState, p: Pixel, answer: int)
    requires LabConsistent(s)
    ensures LabConsistent(MeanFaceSelected(s, answer))
    ensures LabConsistent(PixelToggled(s, p))
    ensures LabConsistent(SelectionCleared(s))
    ensures LabConsistent(Lab1Submitted(s)) && LabConsistent(Lab1Reset(s))
  {
    ToggleKeepsWellFormed(s.selectedPixels, p);
  }

  /** Every event of labs 2 and 3, and every tab opening, keeps a state consistent. */
  lemma OtherEventsKeepConsistent(s: LabState, i: int, value: real, t: TargetExpression,
                                  k: int)
    requires LabConsistent(s) && 0 <= i < 3
    ensures LabConsistent(TargetSelected(s, t)) && LabConsistent(CoefficientSet(s, i, value))
    ensures LabConsistent(SynthesisSubmitted(s)) && LabConsistent(Lab2Reset(s))
    ensures LabConsistent(ComponentsSet(s, k)) && LabConsistent(OptimalKFound(s))
    ensures LabConsistent(Lab3Reset(s))
    ensures LabConsistent(Lab1Opened(s)) && LabConsistent(Lab2Opened(s)) && LabConsistent(Lab3Opened(s))
  {
  }

  // ---------------------------------------------------------------- the object

  /** pcaData with its constant parts (mean face, eigen-faces, eigenvalues) fixed by initData
      and its changing parts as fields. */
  class PcaLab {
    const meanFace: Grid
    const eigenvectors: seq<Grid>
    const eigenvalues: seq<real>
    var lab1Completed: bool
    var lab2Completed: bool
    var lab3Completed: bool
    var lab1Initialized: bool
    var lab2Initialized: bool
    var lab3Initialized: bool
    var selectedMeanFace: Option<int>
    var selectedPixels: seq<Pixel>
    var target: Option<TargetExpression>
    var coefficients: seq<real>
    var shownSimilarity: int
    var componentCount: int
    var shownVariancePercent: int
    var shownCompression: real

    function State(): LabState
      reads this
    {
      LabState(lab1Completed, lab2Completed, lab3Completed,
               lab1Initialized, lab2Initialized, lab3Initialized,
               selectedMeanFace, selectedPixels, target, coefficients, shownSimilarity,
               componentCount, shownVariancePercent, shownCompression)
    }

    predicate Valid()
      reads this
    {
      IsGrid(meanFace) && AllGrids(eigenvectors) && eigenvalues == LabEigenvalues
      && LabConsistent(State())
    }

    /** Page load: initData computes the mean face of the smiley patterns and stores the
        eigen-faces and eigenvalues, then initLab1 opens lab 1. The controls' starting
        values come from the page and are parameters. */
    constructor (patterns: seq<Grid>, eigenFaces: seq<Grid>, sliders: seq<real>,
                 similarityText: int, sliderK: int, variancePercentText: int,
                 compressionText: real)
      requires AllGrids(patterns) && |patterns| > 0 && AllGrids(eigenFaces)
      requires |sliders| == 3
      ensures Valid() && eigenvectors == eigenFaces
      ensures forall i, j :: 0 <= i < Size && 0 <= j < Size ==>
                meanFace[i][j] == CellSum(patterns, i, j) / |patterns| as real
      ensures State() == LabState(false, false, false, true, false, false, None, [], None,
                                  sliders, similarityText, sliderK, variancePercentText,
                                  compressionText)
    {
      var mean := CalculateMeanFace(patterns);
      meanFace := mean;
      eigenvectors := eigenFaces;
      eigenvalues := LabEigenvalues;
      lab1Completed, lab2Completed, lab3Completed := false, false, false;
      lab1Initialized, lab2Initialized, lab3Initialized := true, false, false;
      selectedMeanFace := None;
      selectedPixels := [];
      target := None;
      coefficients := sliders;
      shownSimilarity := similarityText;
      componentCount := sliderK;
      shownVariancePercent := variancePercentText;
      shownCompression := compressionText;
    }

    /** The number of completed labs, as updateProgress shows it. */
    method Progress() returns (completed: int)
      ensures completed == CompletedCount(State())
    {
      completed := 0;
      if lab1Completed { completed := completed + 1; }
      if lab2Completed { completed := completed + 1; }
      if lab3Completed { completed := completed + 1; }
    }

    method SelectMeanFace(answer: int)
      requires Valid()
      modifies this
      ensures Valid() && State() == MeanFaceSelected(old(State()), answer)
    {
      selectedMeanFace := Some(answer);
    }

    /** The pixel click handler of lab 1. */
    method TogglePixel(p: Pixel)
      requires Valid()
      modifies this
      ensures Valid() && State() == PixelToggled(old(State()), p)
    {
      var sel := selectedPixels;
      var index := IndexOf(sel, p);
      if index >= 0 {
        sel := sel[..index] + sel[index + 1..];
      } else if |sel| < MaxSelected {
        sel := sel + [p];
      }
      assert sel == Toggled(selectedPixels, p);
      ToggleKeepsWellFormed(selectedPixels, p);
      selectedPixels := sel;
    }

    method ClearSelection()
      requires Valid()
      modifies this
      ensures Valid() && State() == SelectionCleared(old(State()))
    {
      selectedPixels := [];
    }

    /** submitLab1Answers; the score, or None when the submission is refused. */
    method SubmitLab1Answers() returns (score: Option<int>)
      requires Valid()
      modifies this
      ensures Valid() && State() == Lab1Submitted(old(State()))
      ensures score == Lab1Outcome(old(State()))
    {
      if selectedMeanFace.None? || selectedMeanFace.value == 0 {
        return None;
      }
      if |selectedPixels| != 3 {
        return None;
      }
      var matched := CountMatches(selectedPixels, CorrectPixels);
      score := Some(Lab1Score(selectedMeanFace.value == CorrectMeanFace, matched));
      lab1Completed := true;
    }

    method ResetLab1()
      requires Valid()
      modifies this
      ensures Valid() && State() == Lab1Reset(old(State()))
    {
      selectedMeanFace := None;
      selectedPixels := [];
      lab1Completed := false;
    }

    /** updateSimilarity over the current sliders and target. */
    method UpdateSimilarity()
      requires Valid()
      modifies this
      ensures Valid() && State() == old(State()).(shownSimilarity := SimilarityShown(old(State())))
    {
      match target {
        case None =>
        case Some(t) =>
          var diff := CoefficientDistance(TargetCoefficients(t), coefficients);
          var similarity := Max(0.0, 1.0 - diff / 3.0);
          shownSimilarity := Round(similarity * 100.0);
      }
    }

    method SelectTarget(t: TargetExpression)
      requires Valid()
      modifies this
      ensures Valid() && State() == TargetSelected(old(State()), t)
    {
      target := Some(t);
    }

    /** An input event on slider i. */
    method SetCoefficient(i: int, value: real)
      requires Valid() && 0 <= i < 3
      modifies this
      ensures Valid() && State() == CoefficientSet(old(State()), i, value)
    {
      coefficients := coefficients[i := value];
      UpdateSimilarity();
    }

    method SubmitSynthesis()
      requires Valid()
      modifies this
      ensures Valid() && State() == SynthesisSubmitted(old(State()))
    {
      if shownSimilarity >= 80 {
        lab2Completed := true;
      }
    }

    method ResetLab2()
      requires Valid()
      modifies this
      ensures Valid() && State() == Lab2Reset(old(State()))
    {
      coefficients := [0.0, 0.0, 0.0];
      UpdateSimilarity();
      lab2Completed := false;
    }

    /** An input event on the k slider. */
    method SetComponentCount(k: int)
      requires Valid()
      modifies this
      ensures Valid() && State() == ComponentsSet(old(State()), k)
    {
      componentCount := k;
      var percent, compression := UpdateStats(eigenvalues, k);
      shownVariancePercent, shownCompression := percent, compression;
    }

    method FindOptimalComponents()
      requires Valid()
      modifies this
      ensures Valid() && State() == OptimalKFound(old(State()))
    {
      var k := FindOptimalK(eigenvalues);
      SetComponentCount(k);
      lab3Completed := true;
    }

    method ResetLab3()
      requires Valid()
      modifies this
      ensures Valid() && State() == Lab3Reset(old(State()))
    {
      SetComponentCount(3);
      lab3Completed := false;
    }

    method OpenLab1()
      requires Valid()
      modifies this
      ensures Valid() && State() == Lab1Opened(old(State()))
    {
      lab1Initialized := true;
    }

    method OpenLab2()
      requires Valid()
      modifies this
      ensures Valid() && State() == Lab2Opened(old(State()))
    {
      lab2Initialized := true;
      UpdateSimilarity();
    }

    method OpenLab3()
      requires Valid()
      modifies this
      ensures Valid() && State() == Lab3Opened(old(State()))
    {
      lab3Initialized := true;
      SetComponentCount(componentCount);
    }

    method ResetAll(confirmed: bool)
      requires Valid()
      modifies this
      ensures Valid() && State() == AllReset(old(State()), confirmed)
    {
      if !confirmed {
        return;
      }
      lab1Completed, lab2Completed, lab3Completed := false, false, false;
      selectedMeanFace := None;
      selectedPixels := [];
      if lab1Initialized {
        ResetLab1();
      }
      if lab2Initialized {
        ResetLab2();
      }
      if lab3Initialized {
        ResetLab3();
      }
    }
  }
}
