/**
 * The keyboard handler of the per-frame game: `p` toggles between playing and
 * paused, and space and arrow-up have their default action suppressed while
 * playing. Both `p` checks read the phase as it was when the key went down.
 */
module GameControls {
  import opened GameStore

  /** Lower-cases the ASCII letters and keeps every other character. */
  function LowerAscii(s: string): (t: string)
    ensures |t| == |s|
    ensures forall i :: 0 <= i < |s| ==> t[i] == (if 'A' <= s[i] <= 'Z' then (s[i] as int + 32) as char else s[i])
  {
    seq(|s|, i requires 0 <= i < |s| => if 'A' <= s[i] <= 'Z' then (s[i] as int + 32) as char else s[i])
  }

  datatype KeyOutcome = KeyOutcome(phase: Phase, preventDefault: bool)

  function HandleKeyDown(key: string, phase: Phase): (o: KeyOutcome)
    ensures o.phase != phase <==> LowerAscii(key) == "p" && (phase == Playing || phase == Paused)
    ensures LowerAscii(key) == "p" && phase == Playing ==> o.phase == Paused
    ensures LowerAscii(key) == "p" && phase == Paused ==> o.phase == Playing
    ensures o.preventDefault <==>
              (LowerAscii(key) == "p" && (phase == Playing || phase == Paused)) ||
              ((LowerAscii(key) == " " || LowerAscii(key) == "arrowup") && phase == Playing)
  {
    var k := LowerAscii(key);
    var afterPause := if k == "p" && phase == Playing then Paused else phase;
    var afterResume := if k == "p" && phase == Paused then Playing else afterPause;
    var prevent := (k == "p" && phase == Playing) || (k == "p" && phase == Paused) ||
                   ((k == " " || k == "arrowup") && phase == Playing);
    KeyOutcome(afterResume, prevent)
  }

  /** Two presses of `p` bring either of the two toggled phases back. */
  lemma PauseToggleInvolution(key: string, phase: Phase)
    requires LowerAscii(key) == "p" && (phase == Playing || phase == Paused)
    ensures HandleKeyDown(key, HandleKeyDown(key, phase).phase).phase == phase
  {
  }

  /** The capital letter works too, and the menu and game-over phases ignore it. */
  lemma CapitalPToggles()
    ensures HandleKeyDown("P", Playing).phase == Paused
    ensures HandleKeyDown("P", Paused).phase == Playing
    ensures HandleKeyDown("P", Menu).phase == Menu && HandleKeyDown("P", GameOver).phase == GameOver
  {
    assert LowerAscii("P") == "p";
  }

  /** Arrow-up changes no phase; it only suppresses the default action while playing. */
  lemma ArrowUpOnlySuppresses(phase: Phase)
    ensures HandleKeyDown("ArrowUp", phase) == KeyOutcome(phase, phase == Playing)
  {
    assert LowerAscii("ArrowUp") == "arrowup";
  }
}
