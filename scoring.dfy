/**
 * The scoring hook of the per-frame game: it remembers the score it saw last
 * and, on each increase, plays the milestone cue for the first milestone the
 * increase crossed and offers the new score to the store as a high score.
 */
module Scoring {
  import opened Wrappers
  import opened Cues
  import opened GameStore

  /** Milestone `m` lies in the half-open stretch `(prev, score]`. */
  predicate Crossed(m: int, prev: int, score: int) {
    prev < m <= score
  }

  /** The first milestone in list order that the step from `prev` to `score` crossed. */
  function FirstCrossed(milestones: seq<int>, prev: int, score: int): (found: Option<int>)
    ensures found.None? <==> forall i :: 0 <= i < |milestones| ==> !Crossed(milestones[i], prev, score)
    ensures found.Some? ==>
              exists i :: 0 <= i < |milestones| && milestones[i] == found.value && Crossed(found.value, prev, score) &&
                          forall j :: 0 <= j < i ==> !Crossed(milestones[j], prev, score)
    decreases |milestones|
  {
    if |milestones| == 0 then None
    else if score >= milestones[0] && prev < milestones[0] then Some(milestones[0])
    else
      var rest := FirstCrossed(milestones[1..], prev, score);
      if rest.Some? then
        assert forall i :: 0 <= i < |milestones| - 1 ==> milestones[1..][i] == milestones[i + 1];
        rest
      else rest
  }

  /** A found milestone counts only when it is not 0, which the host language treats as false. */
  predicate Truthy(found: Option<int>) {
    found.Some? && found.value != 0
  }

  /** The cues of one run of the hook. */
  function MilestoneCues(milestones: seq<int>, prev: int, score: int): (cues: seq<Cue>)
    ensures |cues| <= 1
    ensures cues != [] ==> cues == [MilestoneCue] && score > prev
  {
    if score > prev && Truthy(FirstCrossed(milestones, prev, score)) then [MilestoneCue] else []
  }

  /** With no zero milestone, the cue plays exactly when some milestone was crossed. */
  lemma MilestoneCueIff(milestones: seq<int>, prev: int, score: int)
    requires forall i :: 0 <= i < |milestones| ==> milestones[i] != 0
    ensures MilestoneCues(milestones, prev, score) == [MilestoneCue] <==>
            exists i :: 0 <= i < |milestones| && Crossed(milestones[i], prev, score)
  {
    var found := FirstCrossed(milestones, prev, score);
    if found.Some? {
      var i :| 0 <= i < |milestones| && milestones[i] == found.value && Crossed(found.value, prev, score);
      assert found.value != 0;
    }
  }

  /** Crossing several milestones at once still plays one cue, for the first one listed. */
  lemma OneCueForSeveralMilestones()
    ensures FirstCrossed(InitialMilestones, 5, 60) == Some(10)
    ensures MilestoneCues(InitialMilestones, 5, 60) == [MilestoneCue]
  {
  }

  /** After a reset remembers 0, reaching 10 again plays the cue again. */
  lemma MilestoneRefiresAfterReset()
    ensures MilestoneCues(InitialMilestones, 12, 0) == []
    ensures MilestoneCues(InitialMilestones, 0, 10) == [MilestoneCue]
  {
  }

  class ScoringHook {
    var previousScore: int

    /** The hook starts out remembering the score it first sees. */
    constructor (score: int)
      ensures previousScore == score
    {
      previousScore := score;
    }

    /** One run of the effect after the store's score changed. */
    method OnScoreChange(store: Store) returns (cues: seq<Cue>)
      requires store.Valid()
      modifies this, store
      ensures cues == MilestoneCues(store.milestones, old(previousScore), old(store.score))
      ensures old(store.score) > old(previousScore) && old(store.score) > old(store.highScore) ==>
                store.State() == old(store.State()).(highScore := old(store.score),
                                                     storage := Some(SavedHighScore(old(store.score))))
      ensures old(store.score) <= old(previousScore) || old(store.score) <= old(store.highScore) ==>
                store.State() == old(store.State())
      ensures store.highScore >= old(store.highScore) && store.Valid()
      ensures previousScore == store.score
    {
      var score := store.score;
      cues := [];
      if score > previousScore {
        var found := FirstCrossed(store.milestones, previousScore, score);
        if found.Some? && found.value != 0 {
          cues := [MilestoneCue];
        }
        store.UpdateHighScoreIfNeeded(score);
      }
      previousScore := score;
    }
  }
}
