/** The sound cues the per-frame game hands to its audio collaborator, in the order they occur. */
module Cues {
  datatype Cue = FlapCue | CollisionCue | MilestoneCue

  /** `n` copies of one cue. */
  function Repeat(c: Cue, n: nat): (cues: seq<Cue>)
    ensures |cues| == n && forall i :: 0 <= i < n ==> cues[i] == c
  {
    seq(n, _ => c)
  }
}
