/** Lab 1 of the landing page (script.js): the global lab1Data record the mean-face buttons
    and the pixel grid fill in, the submission that scores it against the answer key, and
    the userProgress record with the navigation badges drawn from it.

    lab1Data starts out undefined, and a record created by a mean-face click has no
    selectedPixels list until the pixel grid is rendered; both absences are Options here. */
module LandingPage {
  import opened Wrappers
  import opened PixelSelection

  /** SMILEY_DATA.lab1Answers. */
  datatype AnswerKey = AnswerKey(meanFaceIndex: int, importantPixels: seq<Pixel>)

  /** One lab's entry of userProgress. */
  datatype LabProgress = LabProgress(completed: bool, score: int, progress: int)

  /** window.lab1Data. */
  datatype Lab1Data = Lab1Data(meanFaceChoice: Option<int>, selectedPixels: Option<seq<Pixel>>)

  datatype PageState = PageState(
    lab1Data: Option<Lab1Data>,
    lab1: LabProgress,
    lab2: LabProgress,
    lab3: LabProgress)

  const NotStarted: LabProgress := LabProgress(false, 0, 0)

  /** Page load: no lab1Data, and every lab not started. */
  function PageLoaded(): PageState
  {
    PageState(None, NotStarted, NotStarted, NotStarted)
  }

  /** The selected pixels, where there is a list of them. */
  predicate SelectionWellFormed(data: Option<Lab1Data>)
  {
    data.Some? && data.value.selectedPixels.Some? ==> WellFormed(data.value.selectedPixels.value)
  }

  predicate InRange(p: LabProgress)
  {
    0 <= p.score <= 100 && 0 <= p.progress <= 100
  }

  /** What every reachable state satisfies. */
  predicate PageConsistent(s: PageState)
  {
    SelectionWellFormed(s.lab1Data) && InRange(s.lab1) && InRange(s.lab2) && InRange(s.lab3)
  }

  // ---------------------------------------------------------------- lab 1 inputs

  /** selectMeanFace: creates lab1Data when missing and stores the choice. */
  function ChoiceStored(s: PageState, choice: int): PageState
  {
    var data := match s.lab1Data
      case None => Lab1Data(Some(choice), None)
      case Some(d) => d.(meanFaceChoice := Some(choice));
    s.(lab1Data := Some(data))
  }

  /** renderPixelSelector: creates lab1Data when missing and empties the selection. */
  function PixelSelectorRendered(s: PageState): PageState
  {
    var data := match s.lab1Data
      case None => Lab1Data(None, Some([]))
      case Some(d) => d.(selectedPixels := Some([]));
    s.(lab1Data := Some(data))
  }

  /** togglePixelSelection: nothing without lab1Data; nothing either when lab1Data has no
      list yet (the handler then fails on the missing list before changing anything);
      otherwise the lab's toggle rule. */
  function PixelSelectionToggled(s: PageState, p: Pixel): PageState
  {
    match s.lab1Data
    case None => s
    case Some(d) =>
      match d.selectedPixels
      case None => s
      case Some(sel) => s.(lab1Data := Some(d.(selectedPixels := Some(Toggled(sel, p)))))
  }

  /** clearSelection: nothing without lab1Data, otherwise an empty list. */
  function PixelsCleared(s: PageState): PageState
  {
    match s.lab1Data
    case None => s
    case Some(d) => s.(lab1Data := Some(d.(selectedPixels := Some([]))))
  }

  /** resetLab1: a fresh record with no choice and no pixels; userProgress is kept. */
  function RecordReset(s: PageState): PageState
  {
    s.(lab1Data := Some(Lab1Data(None, Some([]))))
  }

  // ---------------------------------------------------------------- lab 1 submission

  /** selectedPixels || []. */
  function PixelsOrEmpty(d: Lab1Data): seq<Pixel>
  {
    match d.selectedPixels
    case None => []
    case Some(sel) => sel
  }

  /** submitLab1's score, or None when it stops early: no lab1Data, no mean face chosen,
      or no pixel selected. */
  function SubmissionOutcome(s: PageState, key: AnswerKey): Option<int>
  {
    match s.lab1Data
    case None => None
    case Some(d) =>
      if !Chosen(d.meanFaceChoice) || PixelsOrEmpty(d) == [] then None
      else Some(Lab1Score(d.meanFaceChoice.value == key.meanFaceIndex,
                          MatchCount(PixelsOrEmpty(d), key.importantPixels)))
  }

  /** A submission is scored exactly when there is a choice and at least one pixel; one
      pixel suffices, unlike the smiley lab's demand for exactly three. With a well formed
      selection the score lies in [0, 100] and is 100 exactly for the key's face and three
      selected pixels all in the key. */
  lemma SubmissionOutcomeProperties(s: PageState, key: AnswerKey)
    requires PageConsistent(s)
    ensures SubmissionOutcome(s, key).Some? <==>
              s.lab1Data.Some? && Chosen(s.lab1Data.value.meanFaceChoice)
              && |PixelsOrEmpty(s.lab1Data.value)| >= 1
    ensures SubmissionOutcome(s, key).Some? ==> 0 <= SubmissionOutcome(s, key).value <= 100
    ensures SubmissionOutcome(s, key).Some? ==>
              (SubmissionOutcome(s, key).value == 100 <==>
                 s.lab1Data.value.meanFaceChoice == Some(key.meanFaceIndex)
                 && |PixelsOrEmpty(s.lab1Data.value)| == 3
                 && forall p :: p in PixelsOrEmpty(s.lab1Data.value) ==> p in key.importantPixels)
  {
    if SubmissionOutcome(s, key).Some? {
      var d := s.lab1Data.value;
      var sel := PixelsOrEmpty(d);
      var matched := MatchCount(sel, key.importantPixels);
      assert |sel| <= MaxSelected;
      Lab1ScoreBounds(d.meanFaceChoice.value == key.meanFaceIndex, matched);
      MatchCountAll(sel, key.importantPixels);
    }
  }

  /** submitLab1: a scored submission records the score, marks lab 1 completed at 100%
      progress and leaves the other labs alone; a refused one changes nothing. */
  function SubmissionRecorded(s: PageState, key: AnswerKey): PageState
  {
    match SubmissionOutcome(s, key)
    case None => s
    case Some(score) => s.(lab1 := LabProgress(true, score, 100))
  }

  /** A mean-face click before the pixel grid is drawn leaves the record without a list:
      pixel clicks then have no effect and a submission is refused until the grid is
      rendered. */
  lemma ChoiceBeforeGridBlocksPixels(choice: int, p: Pixel, key: AnswerKey)
    ensures var s := ChoiceStored(PageLoaded(), choice);
            PixelSelectionToggled(s, p) == s && SubmissionOutcome(s, key) == None
  {
  }

  // ---------------------------------------------------------------- badges

  datatype Badge = Check | Percent(percent: int) | Blank

  /** updateProgressUI's badge: a check mark for a completed lab, the progress for a
      started one, nothing otherwise. */
  function BadgeOf(p: LabProgress): Badge
  {
    if p.completed then Check
    else if p.progress > 0 then Percent(p.progress)
    else Blank
  }

  /** Which badge shows: a check exactly for a completed lab, a percentage exactly for a
      started, uncompleted one, which then lies in 1..100. */
  lemma BadgeProperties(p: LabProgress)
    requires InRange(p)
    ensures BadgeOf(p) == Check <==> p.completed
    ensures BadgeOf(p).Percent? <==> !p.completed && p.progress > 0
    ensures BadgeOf(p).Percent? ==> 1 <= BadgeOf(p).percent <= 100
    ensures BadgeOf(p) == Blank <==> !p.completed && p.progress == 0
  {
  }

  /** After a scored submission lab 1's badge is a check and the other badges are as they
      were. */
  lemma SubmitShowsCheck(s: PageState, key: AnswerKey)
    requires SubmissionOutcome(s, key).Some?
    ensures BadgeOf(SubmissionRecorded(s, key).lab1) == Check
    ensures SubmissionRecorded(s, key).lab2 == s.lab2 && SubmissionRecorded(s, key).lab3 == s.lab3
    ensures SubmissionRecorded(s, key).lab1Data == s.lab1Data
  {
  }

  /** The inputs of lab 1 keep a state consistent. */
  lemma InputsKeepConsistent(s: PageState, choice: int, p: Pixel)
    requires PageConsistent(s)
    ensures PageConsistent(ChoiceStored(s, choice))
    ensures PageConsistent(PixelSelectorRendered(s))
    ensures PageConsistent(PixelSelectionToggled(s, p))
    ensures PageConsistent(PixelsCleared(s))
    ensures PageConsistent(RecordReset(s))
  {
    match s.lab1Data
    case None =>
    case Some(d) =>
      match d.selectedPixels
      case None =>
      case Some(sel) => ToggleKeepsWellFormed(sel, p);
  }

  /** A submission keeps a state consistent: the recorded score lies in [0, 100]. */
  lemma SubmitKeepsConsistent(s: PageState, key: AnswerKey)
    requires PageConsistent(s)
    ensures PageConsistent(SubmissionRecorded(s, key))
  {
    SubmissionOutcomeProperties(s, key);
  }

  // ---------------------------------------------------------------- the page

  /** The page's globals lab1Data and userProgress. */
  class Page {
    var lab1Data: Option<Lab1Data>
    var lab1: LabProgress
    var lab2: LabProgress
    var lab3: LabProgress

    function State(): PageState
      reads this
    {
      PageState(lab1Data, lab1, lab2, lab3)
    }

    predicate Valid()
      reads this
    {
      PageConsistent(State())
    }

    constructor ()
      ensures Valid() && State() == PageLoaded()
    {
      lab1Data := None;
      lab1, lab2, lab3 := NotStarted, NotStarted, NotStarted;
    }

    method SelectMeanFace(choice: int)
      requires Valid()
      modifies this
      ensures Valid() && State() == ChoiceStored(old(State()), choice)
    {
      match lab1Data {
        case None => lab1Data := Some(Lab1Data(Some(choice), None));
        case Some(d) => lab1Data := Some(d.(meanFaceChoice := Some(choice)));
      }
    }

    method RenderPixelSelector()
      requires Valid()
      modifies this
      ensures Valid() && State() == PixelSelectorRendered(old(State()))
    {
      match lab1Data {
        case None => lab1Data := Some(Lab1Data(None, Some([])));
        case Some(d) => lab1Data := Some(d.(selectedPixels := Some([])));
      }
    }

    method TogglePixelSelection(p: Pixel)
      requires Valid()
      modifies this
      ensures Valid() && State() == PixelSelectionToggled(old(State()), p)
    {
      if lab1Data.None? || lab1Data.value.selectedPixels.None? {
        return;
      }
      var d := lab1Data.value;
      var sel := d.selectedPixels.value;
      ghost var expected := PixelSelectionToggled(State(), p);
      assert expected == State().(lab1Data := Some(d.(selectedPixels := Some(Toggled(sel, p)))));
      var index := IndexOf(sel, p);
      var next := sel;
      if index >= 0 {
        next := sel[..index] + sel[index + 1..];
      } else if |sel| < MaxSelected {
        next := sel + [p];
      }
      assert next == Toggled(sel, p);
      ToggleKeepsWellFormed(sel, p);
      lab1Data := Some(d.(selectedPixels := Some(next)));
    }

    method ClearSelection()
      requires Valid()
      modifies this
      ensures Valid() && State() == PixelsCleared(old(State()))
    {
      if lab1Data.None? {
        return;
      }
      lab1Data := Some(lab1Data.value.(selectedPixels := Some([])));
    }

    /** submitLab1; the score, or None when the submission is refused. */
    method SubmitLab1(key: AnswerKey) returns (score: Option<int>)
      requires Valid()
      modifies this
      ensures Valid() && State() == SubmissionRecorded(old(State()), key)
      ensures score == SubmissionOutcome(old(State()), key)
    {
      SubmissionOutcomeProperties(State(), key);
      if lab1Data.None? {
        return None;
      }
      var choice := lab1Data.value.meanFaceChoice;
      var sel := PixelsOrEmpty(lab1Data.value);
      if choice.None? || choice.value == 0 {
        return None;
      }
      if |sel| == 0 {
        return None;
      }
      var matched := CountMatches(sel, key.importantPixels);
      var total := Lab1Score(choice.value == key.meanFaceIndex, matched);
      lab1 := LabProgress(true, total, 100);
      score := Some(total);
    }

    method ResetLab1()
      requires Valid()
      modifies this
      ensures Valid() && State() == RecordReset(old(State()))
    {
      lab1Data := Some(Lab1Data(None, Some([])));
    }
  }
}
