/**
 * The score panel of the per-frame game: each milestone is shown as reached,
 * next or future, and a milestone crossed by a score increase is celebrated
 * until a timer clears it.
 */
module ScoreHud {
  import opened Wrappers
  import Scoring

  datatype MilestoneStatus = Reached | Next | Future

  /** The first milestone in list order above `score`. */
  function FirstAbove(milestones: seq<int>, score: int): (found: Option<int>)
    ensures found.None? <==> forall i :: 0 <= i < |milestones| ==> milestones[i] <= score
    ensures found.Some? ==>
              exists i :: 0 <= i < |milestones| && milestones[i] == found.value && found.value > score &&
                          forall j :: 0 <= j < i ==> milestones[j] <= score
    decreases |milestones|
  {
    if |milestones| == 0 then None
    else if milestones[0] > score then Some(milestones[0])
    else
      var rest := FirstAbove(milestones[1..], score);
      assert forall i :: 0 <= i < |milestones| - 1 ==> milestones[1..][i] == milestones[i + 1];
      rest
  }

  function GetMilestoneStatus(milestones: seq<int>, score: int, milestone: int): (st: MilestoneStatus)
    ensures st == Reached <==> score >= milestone
    ensures st == Next ==> milestone > score && milestone in milestones
  {
    if score >= milestone then Reached
    else if FirstAbove(milestones, score) == Some(milestone) then Next
    else Future
  }

  predicate StrictlyAscending(milestones: seq<int>) {
    forall i, j :: 0 <= i < j < |milestones| ==> milestones[i] < milestones[j]
  }

  /** On an ascending list the one milestone shown as next is the smallest one above the score. */
  lemma NextIsSmallestAbove(milestones: seq<int>, score: int, k: nat)
    requires StrictlyAscending(milestones)
    requires k < |milestones|
    ensures GetMilestoneStatus(milestones, score, milestones[k]) == Next <==>
            milestones[k] > score && (k == 0 || milestones[k - 1] <= score)
  {
    var found := FirstAbove(milestones, score);
    if milestones[k] > score && (k == 0 || milestones[k - 1] <= score) {
      forall j | 0 <= j < k
        ensures milestones[j] <= score
      {
        if j < k - 1 {
          assert milestones[j] < milestones[k - 1];
        }
      }
      var i :| 0 <= i < |milestones| && milestones[i] == found.value && found.value > score &&
               forall j :: 0 <= j < i ==> milestones[j] <= score;
      assert i == k;
    }
    if GetMilestoneStatus(milestones, score, milestones[k]) == Next && k > 0 {
      var i :| 0 <= i < |milestones| && milestones[i] == found.value && found.value > score &&
               forall j :: 0 <= j < i ==> milestones[j] <= score;
      assert i == k;
    }
  }

  /** On an ascending list exactly one milestone is next while the score is below the last one, and none after. */
  lemma ExactlyOneNext(milestones: seq<int>, score: int)
    requires StrictlyAscending(milestones)
    ensures (|milestones| > 0 && score < milestones[|milestones| - 1]) ==>
              exists k :: 0 <= k < |milestones| && GetMilestoneStatus(milestones, score, milestones[k]) == Next &&
                          forall j :: 0 <= j < |milestones| && GetMilestoneStatus(milestones, score, milestones[j]) == Next ==> j == k
    ensures (|milestones| == 0 || score >= milestones[|milestones| - 1]) ==>
              forall j :: 0 <= j < |milestones| ==> GetMilestoneStatus(milestones, score, milestones[j]) != Next
  {
    if |milestones| > 0 && score < milestones[|milestones| - 1] {
      var found := FirstAbove(milestones, score);
      var k :| 0 <= k < |milestones| && milestones[k] == found.value && found.value > score &&
               forall j :: 0 <= j < k ==> milestones[j] <= score;
      NextIsSmallestAbove(milestones, score, k);
      forall j | 0 <= j < |milestones| && GetMilestoneStatus(milestones, score, milestones[j]) == Next
        ensures j == k
      {
        NextIsSmallestAbove(milestones, score, j);
      }
    } else if |milestones| > 0 {
      forall j | 0 <= j < |milestones|
        ensures GetMilestoneStatus(milestones, score, milestones[j]) != Next
      {
        if j < |milestones| - 1 {
          assert milestones[j] < milestones[|milestones| - 1];
        }
      }
    }
  }

  /** The celebration state of the panel and the score it saw last. */
  class Celebration {
    var previousScore: int
    var celebrating: Option<int>

    constructor (score: int)
      ensures previousScore == score && celebrating == None
    {
      previousScore := score;
      celebrating := None;
    }

    /** One run of the effect: a crossed, non-zero milestone starts a celebration. */
    method OnScoreChange(milestones: seq<int>, score: int)
      modifies this
      ensures var found := Scoring.FirstCrossed(milestones, old(previousScore), score);
              celebrating == (if score > old(previousScore) && Scoring.Truthy(found) then found else old(celebrating))
      ensures previousScore == score
    {
      if score > previousScore {
        var found := Scoring.FirstCrossed(milestones, previousScore, score);
        if found.Some? && found.value != 0 {
          celebrating := found;
        }
      }
      previousScore := score;
    }

    /** The timer set with a celebration clears it. */
    method ClearCelebration()
      modifies this
      ensures celebrating == None && previousScore == old(previousScore)
    {
      celebrating := None;
    }
  }
}
