/** The "which pixels vary most" question of lab 1, as both the 8x8 smiley lab
    (planets/planet102/script.js) and the landing page (script.js) implement it: a click
    toggles a grid position in a list of at most three, and a submission counts how many
    chosen positions are in the answer key and scores them. */
module PixelSelection {
  import opened Wrappers

  /** A grid position, as the {row, col} records in selectedPixels. */
  datatype Pixel = Pixel(row: int, col: int)

  /** No more than this many positions may be selected. */
  const MaxSelected: nat := 3

  predicate NoDuplicates(sel: seq<Pixel>)
  {
    forall i, j :: 0 <= i < j < |sel| ==> sel[i] != sel[j]
  }

  /** What every reachable selection satisfies: at most three positions, none twice. */
  predicate WellFormed(sel: seq<Pixel>)
  {
    |sel| <= MaxSelected && NoDuplicates(sel)
  }

  /** findIndex: the first index holding p, or -1. */
  function IndexOf(sel: seq<Pixel>, p: Pixel): (r: int)
    ensures -1 <= r < |sel|
    ensures r >= 0 ==> sel[r] == p && forall k :: 0 <= k < r ==> sel[k] != p
    ensures r == -1 <==> p !in sel
  {
    if sel == [] then -1
    else if sel[0] == p then 0
    else
      var r := IndexOf(sel[1..], p);
      if r < 0 then -1 else r + 1
  }

  /** The click handler: splice out a selected position, push an unselected one while fewer
      than three are held, otherwise leave the list alone (the page shows a warning). */
  function Toggled(sel: seq<Pixel>, p: Pixel): seq<Pixel>
  {
    var i := IndexOf(sel, p);
    if i >= 0 then sel[..i] + sel[i + 1..]
    else if |sel| < MaxSelected then sel + [p]
    else sel
  }

  /** A click keeps the selection well formed, changes the membership of the clicked position
      only, and selects it exactly when it was unselected and there was room. */
  lemma ToggleKeepsWellFormed(sel: seq<Pixel>, p: Pixel)
    requires WellFormed(sel)
    ensures WellFormed(Toggled(sel, p))
    ensures p in Toggled(sel, p) <==> p !in sel && |sel| < MaxSelected
    ensures forall q :: q != p ==> (q in Toggled(sel, p) <==> q in sel)
  {
    var i := IndexOf(sel, p);
    if i >= 0 {
      var r := sel[..i] + sel[i + 1..];
      assert forall k :: 0 <= k < |r| ==> r[k] == (if k < i then sel[k] else sel[k + 1]);
      forall q | q != p
        ensures q in r <==> q in sel
      {
        if q in sel {
          var k :| 0 <= k < |sel| && sel[k] == q;
          assert k != i;
          if k < i { assert r[k] == q; } else { assert r[k - 1] == q; }
        }
      }
    }
  }

  /** A click on an unselected position with room, then a second click on it, restores the
      selection; a click on a selected position removes exactly one entry. */
  lemma ToggleTwiceRestores(sel: seq<Pixel>, p: Pixel)
    requires WellFormed(sel)
    ensures p !in sel && |sel| < MaxSelected ==> Toggled(Toggled(sel, p), p) == sel
    ensures p in sel ==> |Toggled(sel, p)| == |sel| - 1
    ensures p !in sel && |sel| == MaxSelected ==> Toggled(sel, p) == sel
  {
    if p !in sel && |sel| < MaxSelected {
      var t := sel + [p];
      assert IndexOf(t, p) == |sel| by {
        assert t[|sel|] == p;
        assert forall k :: 0 <= k < |sel| ==> t[k] != p;
      }
      assert t[..|sel|] == sel;
    }
  }

  /** The forEach/some count: how many selected positions appear in the answer key,
      accumulated front to back. */
  function MatchCount(sel: seq<Pixel>, key: seq<Pixel>): (r: nat)
    ensures r <= |sel|
  {
    if sel == [] then 0
    else MatchCount(sel[..|sel| - 1], key) + (if sel[|sel| - 1] in key then 1 else 0)
  }

  /** Every selected position matches exactly when the count is the selection's length. */
  lemma {:induction false} MatchCountAll(sel: seq<Pixel>, key: seq<Pixel>)
    ensures MatchCount(sel, key) == |sel| <==> forall p :: p in sel ==> p in key
  {
    if sel != [] {
      var init := sel[..|sel| - 1];
      MatchCountAll(init, key);
      assert sel == init + [sel[|sel| - 1]];
      assert forall p :: p in sel <==> p in init || p == sel[|sel| - 1];
    }
  }

  /** The matching loop of submitLab1Answers and submitLab1. */
  method CountMatches(sel: seq<Pixel>, key: seq<Pixel>) returns (matched: nat)
    ensures matched == MatchCount(sel, key)
  {
    matched := 0;
    for k := 0 to |sel|
      invariant matched == MatchCount(sel[..k], key)
    {
      assert sel[..k + 1][..k] == sel[..k];
      if sel[k] in key {
        matched := matched + 1;
      }
    }
    assert sel[..|sel|] == sel;
  }

  /** Math.floor(matched / 3 * 50). */
  function PixelScore(matched: nat): int
  {
    ((matched as real) / 3.0 * 50.0).Floor
  }

  /** The four possible pixel scores are 0, 16, 33 and 50. */
  lemma PixelScoreTable(matched: nat)
    requires matched <= 3
    ensures matched == 0 ==> PixelScore(matched) == 0
    ensures matched == 1 ==> PixelScore(matched) == 16
    ensures matched == 2 ==> PixelScore(matched) == 33
    ensures matched == 3 ==> PixelScore(matched) == 50
    ensures 0 <= PixelScore(matched) <= 50
  {
    if matched == 1 {
      assert (1.0 / 3.0 * 50.0) == 50.0 / 3.0;
      assert 16.0 <= 50.0 / 3.0 < 17.0;
    } else if matched == 2 {
      assert (2.0 / 3.0 * 50.0) == 100.0 / 3.0;
      assert 33.0 <= 100.0 / 3.0 < 34.0;
    }
  }

  /** JavaScript truthiness of the mean-face choice: null and 0 are falsy. */
  predicate Chosen(choice: Option<int>)
  {
    choice.Some? && choice.value != 0
  }

  /** A submission's score: 50 for the right mean face plus the pixel score. */
  function Lab1Score(meanFaceCorrect: bool, matched: nat): int
  {
    (if meanFaceCorrect then 50 else 0) + PixelScore(matched)
  }

  /** With at most three matches the score lies in [0, 100] and is 100 exactly for the right
      face and three matches. */
  lemma Lab1ScoreBounds(meanFaceCorrect: bool, matched: nat)
    requires matched <= 3
    ensures 0 <= Lab1Score(meanFaceCorrect, matched) <= 100
    ensures Lab1Score(meanFaceCorrect, matched) == 100 <==> meanFaceCorrect && matched == 3
  {
    PixelScoreTable(matched);
  }
}
