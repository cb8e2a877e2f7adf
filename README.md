# Flappy bird: a verified model of the game simulation

This project models the core of a browser flappy-bird game, written in
TypeScript, and proves properties of that model. The repository holds two
separate generations of the simulation. They differ in units, in status names and
in field names, so the model keeps them apart.

**Variant A, the seconds-based game.** Its statuses are `ready`, `running`, `hit`
and `game-over`.
- `GamePhysics` (`src/utils/gamePhysics.ts`) holds the pure parts:
  - bird-against-pipe and bird-against-boundary collision tests, and the search over all pipes;
  - semi-implicit Euler integration with a clamped tilt;
  - pipe-gap placement, with the random draw `r` as a parameter;
  - the capped frame time.
- `CanvasStore` (`src/stores/gameStore.ts`) is the store. It is a class with
  the fields of the one state record and with its actions.
  - The per-tick `UpdatePhysics` scrolls, culls, spawns and scores pipes, and keeps a running high score.
  - Its meaning is the pure function `Tick`. The lemmas are stated about `Tick`.
- `CanvasGame` (`src/components/CanvasGame.tsx`) covers:
  - the flap handler, which dispatches on the status;
  - the frame loop, which advances the store only while it is running and hands a collision to the store;
  - the status graph these two produce.

**Variant B, the per-frame game.** Its phases are `menu`, `playing`, `paused` and
`gameOver`.
- `GameStore` (`src/store/gameStore.ts`) covers:
  - the difficulty presets;
  - the setters;
  - high-score persistence through a `storage` field, holding the text stored under the high-score key (or `None`), with the decimal parse and clamp of `parseInt`;
  - the button handlers of the menus, folded in as `PressControl`.
- `GameEngine` (`src/hooks/useGameEngine.ts`) is the in-place tick. `Update`
  mutates the bird and the pipe list, and reports sound cues (module `Cues`).
  - Its meaning is the pure function `Step`.
  - `Update` is written as its source is: the bird update, the fatal ground check, cull and spawn, then the per-pipe loop that scrolls, scores and collides.
- `Scoring` (`src/hooks/useScoring.ts`) and `ScoreHud` (`src/components/ui/ScoreHUD.tsx`)
  detect milestone crossings against a remembered previous score.
  - The cue and the celebration go to the first crossed milestone only.
- `GameControls` (`src/hooks/useGameControls.ts`) is the `p` pause toggle.

**The WAV header writer.** `SilentWav` (`scripts/generate-audio.cjs`) builds a
silent 16-bit mono PCM file in the RIFF WAVE format, following the WAVE form
definition of the IBM/Microsoft Multimedia Programming Interface and Data
Specifications 1.0.
- The output is a 44-byte header of little-endian fields, followed by zeros.
- It is written into an array, field by field, as the script does.
- A field too wide for its 32-bit slot yields `None`, which models the script's range error.

Numbers of the games are `real` and arithmetic is exact. Scores and bytes are
integers. `Math.random` is the parameter `r` in `[0, 1)`. Audio calls become
the returned cue sequences.

Behaviour kept as written:
- Variant A's default `pipeInterval` (2000) is wider than the canvas (400). After culling, a new pipe is therefore due only when no pipe is left (`CanvasStore.DefaultSpawnsOnlyWhenEmpty`).
- Variant B never scrolls `lastPipeX`. Once it has reached the canvas width, a pipe is spawned only when the list is empty (`GameEngine.SpawnOnlyWhenEmptyOnceAhead`).
- `generatePipeGap` can return up to `H - pipeGap - 50`. The repository's own test expects at most `H - pipeGap - 100`, and `GamePhysics.GapCanExceedTestedBound` gives a draw that exceeds it.
- The frame loop of variant A does not cap the elapsed time. It tests collisions on the bird and pipes of the frame's snapshot, taken before the store is advanced.
- Variant A's store does not use `updateBirdPhysics`. It repeats the same formula inline, and `CanvasStore.Store.UpdatePhysics` calls the function, since the two are identical.

## Model

| member | source | states |
|---|---|---|
| GamePhysics.CheckBirdPipeCollision | src/utils/gamePhysics.ts:3-23 | a hit exactly when the bird's box overlaps the pipe's columns strictly and does not fit inside the gap |
| GamePhysics.PipeCollisionScenarios | src/utils/gamePhysics.test.ts:28-71 | the tested bird/pipe cases: y=180 and y=370 hit, y=275 passes, a pipe at x=150 never hits whatever the height |
| GamePhysics.CheckBirdBoundaryCollision | src/utils/gamePhysics.ts:25-40 | ground exactly when `y+r >= H`, ceiling exactly when not ground and `y-r <= 0`; collided exactly when a kind is reported; never a pipe kind |
| GamePhysics.CheckAllCollisions | src/utils/gamePhysics.ts:42-56 | reports a pipe collision exactly when some pipe is hit; otherwise it is the boundary result, so a pipe takes priority |
| GamePhysics.UpdateBirdPhysics | src/utils/gamePhysics.ts:58-69 | new velocity `v+g·dt`, new height from the new velocity, x and radius unchanged; tilt `0.05·v` clamped to ±0.5: exactly `0.05·v` for `|v| <= 10`, exactly 0.5 at or above 10 and -0.5 at or below -10, with the sign of the velocity |
| GamePhysics.GeneratePipeGap | src/utils/gamePhysics.ts:71-73 | for a draw in [0,1) the gap top lies in `[50, H-pipeGap-50)` when the span is positive (mirrored when negative, 50 when empty) |
| GamePhysics.SpanProduct | src/utils/gamePhysics.ts:72 | a draw in [0,1) times a span stays between 0 and the span, excluding the span |
| GamePhysics.GapCanExceedTestedBound | src/utils/gamePhysics.test.ts:126-129 | with H=600 and pipeGap=150 the draw 0.9 gives a gap top above the test's bound `H-pipeGap-100` |
| GamePhysics.CalculateDeltaTime | src/utils/gamePhysics.ts:75-78 | the elapsed seconds capped at 0.1, with no lower bound |
| CanvasStore.CreateInitialBird | src/stores/gameStore.ts:32-38 | the bird at rest at (0.2·W, 0.5·H) with the config radius; inside the canvas width, and clear of ground and ceiling exactly when the canvas is taller than the bird |
| CanvasStore.CreateInitialState | src/stores/gameStore.ts:40-48 | ready, no pipes, score and high score 0, the initial bird of the given config; its first collision test is clear exactly when the canvas is taller than the bird |
| CanvasStore.Scrolled | src/stores/gameStore.ts:104-106 | every pipe moved left by the distance, nothing else changed, same length and order |
| CanvasStore.WithSpawn | src/stores/gameStore.ts:110-120 | at most one pipe appended, only when due, at the canvas edge with the config's gap and width, unpassed, its gap from `generatePipeGap`; the rest unchanged |
| CanvasStore.MarkPassed | src/stores/gameStore.ts:123-129 | each pipe keeps its fields and its flag becomes passed exactly when it was passed or now scores |
| CanvasStore.StatusTransitions | src/stores/gameStore.ts:55-156 | no action assigns `game-over`; `hit` is entered only from `running` through `setCollision` |
| CanvasStore.CulledMembers | src/stores/gameStore.ts:107 | culling keeps exactly the pipes with `x > -pipeWidth` |
| CanvasStore.CulledAscending | src/stores/gameStore.ts:107 | culling keeps the left-to-right order |
| CanvasStore.ScrolledAscending | src/stores/gameStore.ts:104-106 | scrolling keeps the left-to-right order |
| CanvasStore.SpawnAscending | src/stores/gameStore.ts:110-120 | a spawn lands right of every pipe when the interval is not negative |
| CanvasStore.DefaultSpawnsOnlyWhenEmpty | src/stores/gameStore.ts:18-30 | with the default configuration a pipe is due after culling exactly when none is left |
| CanvasStore.TickAscending | src/stores/gameStore.ts:104-120 | a tick keeps the pipe list ordered left to right |
| CanvasStore.MarkPassedCountsFlags | src/stores/gameStore.ts:123-129 | the passed flags grow by exactly the number of scoring pipes, so each pipe scores once |
| CanvasStore.TickScoring | src/stores/gameStore.ts:122-141 | the score rises by exactly the flags turned on; score and high score never drop; the high score is at least the score |
| CanvasStore.TickKeepsPassed | src/stores/gameStore.ts:104-129 | a passed pipe that survives culling is still in the list, moved, and still passed |
| CanvasStore.ScorePipes | src/stores/gameStore.ts:123-129 | the scoring loop flags exactly `MarkPassed` and adds exactly the pass count |
| CanvasStore.Store.constructor | src/stores/gameStore.ts:50-53 | the initial state of the default configuration |
| CanvasStore.Store.StartGame | src/stores/gameStore.ts:55-62 | status running, the bird placed afresh from the config, no pipes, score 0; high score and config kept |
| CanvasStore.Store.PauseGame | src/stores/gameStore.ts:64 | status `ready` unconditionally, nothing else changed |
| CanvasStore.Store.ResumeGame | src/stores/gameStore.ts:66 | status `running` unconditionally, nothing else changed |
| CanvasStore.Store.ResetGame | src/stores/gameStore.ts:68-71 | the initial state of the current config with the high score kept |
| CanvasStore.Store.Jump | src/stores/gameStore.ts:73-82 | no change unless running; then only the velocity becomes the jump impulse |
| CanvasStore.Store.UpdatePhysics | src/stores/gameStore.ts:84-144 | no change unless running; then the new state is `Tick` of the old one |
| CanvasStore.SpawnPipe | src/stores/gameStore.ts:110-120 | the pipe list after the spawn step is `WithSpawn` of the culled list: one new pipe at the right edge exactly when the list is empty or its last pipe is far enough left |
| CanvasStore.Store.SetCollision | src/stores/gameStore.ts:150-156 | running becomes hit; no change in any other status |
| CanvasGame.JumpDispatch | src/components/CanvasGame.tsx:32-40 | ready starts, running jumps, game-over resets, hit does nothing, each exactly in its status |
| CanvasGame.HandleJump | src/components/CanvasGame.tsx:32-40 | the store state after the dispatched action, per status; nothing in `hit` |
| CanvasGame.HitLeadsOnlyToReady | src/components/CanvasGame.tsx:231-236 | from `hit` only the scheduled reset moves on, and only to `ready` |
| CanvasGame.GameOverUnreachable | src/components/CanvasGame.tsx:204-236 | no sequence of flaps, frames and scheduled resets reaches `game-over` from another status |
| CanvasGame.FrameLoop.constructor | src/components/CanvasGame.tsx:195-202 | the loop starts with the given time stamp and no flash |
| CanvasGame.FrameLoop.GameLoop | src/components/CanvasGame.tsx:195-239 | the status moves as `CanvasStep` of a `Frame` event carrying the snapshot's collision verdict; uncapped elapsed time; store untouched unless running; when running the store ticks and a collision on the snapshot sets `hit`; the flash is set to 0.3 and then counts down; a reset is scheduled exactly in `hit` |
| CanvasGame.FrameLoop.RunningFrame | src/components/CanvasGame.tsx:205-214 | the store ticks; a collision of the pre-tick snapshot moves it to `hit` and sets the flash to 0.3, otherwise the flash is kept |
| GameStore.PresetsOrdered | src/store/gameStore.ts:50-69 | from easy to hard the gap and flap force strictly shrink, pipe speed and gravity strictly grow |
| GameStore.InitialMilestonesAscending | src/store/gameStore.ts:96 | the milestones 10, 25, 50, 100 are strictly ascending and positive |
| GameStore.MergeAudioSettings | src/store/gameStore.ts:101-104 | each field is the patch's value when given, the old value otherwise |
| GameStore.TrimStart | src/store/gameStore.ts:75 | a suffix of the text that does not start with white space |
| GameStore.LeadingDigits | src/store/gameStore.ts:75 | the longest prefix made of decimal digits |
| GameStore.DecimalString | src/store/gameStore.ts:84 | non-empty, all digits, no leading zero, for a score written in plain decimal |
| GameStore.ParseInt | src/store/gameStore.ts:75 | `None` (NaN) exactly when no digit follows the trimmed optional sign; otherwise the signed value of the leading digits, negative only after a `-` |
| GameStore.SavedHighScore | src/store/gameStore.ts:82-88 | the text written is non-empty decimal digits denoting `max(0, score)`, with a leading zero only for a score of 0 or less |
| GameStore.LoadHighScore | src/store/gameStore.ts:71-80 | 0 for missing, empty or non-numeric text, otherwise the parsed value clamped at 0; never negative |
| GameStore.DigitsValueOfDecimal | src/store/gameStore.ts:84 | the digits of `String(n)` denote n |
| GameStore.LeadingDigitsOfDigits | src/store/gameStore.ts:75 | a string of digits is its own leading-digit run |
| GameStore.DigitIsPlain | src/store/gameStore.ts:75 | a digit is neither white space nor a sign |
| GameStore.ParseDigits | src/store/gameStore.ts:75 | a non-empty digit string parses to its value |
| GameStore.ParseDecimal | src/store/gameStore.ts:75 | parsing the decimal text of n gives n |
| GameStore.SaveLoadRoundTrip | src/store/gameStore.ts:71-88 | saving a score and loading it back gives `max(0, score)`, with scores as unbounded integers written in plain decimal |
| GameStore.LoadNegativeIsZero | src/store/gameStore.ts:76 | a stored negative number loads as 0 |
| GameStore.MenuGraph | src/components/menus/PauseMenu.tsx:10-21 | the menu edges: menu to playing, playing to paused only, paused and game-over to playing or menu, nothing enters game-over |
| GameStore.Store.constructor | src/store/gameStore.ts:90-97 | menu, medium, default audio, score and high score 0, not hydrated, milestones [10,25,50,100] |
| GameStore.Store.GetDifficultyParams | src/store/gameStore.ts:125-128 | the preset of the current difficulty, all of its fields positive |
| GameStore.Store.SetGamePhase | src/store/gameStore.ts:99 | any phase is set in any phase, nothing else changes |
| GameStore.Store.SetDifficulty | src/store/gameStore.ts:100 | any difficulty is set in any phase, nothing else changes |
| GameStore.Store.UpdateAudioSettings | src/store/gameStore.ts:101-104 | only the given audio fields change |
| GameStore.Store.SetScore | src/store/gameStore.ts:105 | the score is set, nothing else changes |
| GameStore.Store.AddScore | src/store/gameStore.ts:106-108 | the score grows by exactly the points |
| GameStore.Store.SetHighScore | src/store/gameStore.ts:109-113 | stores and sets the same value `max(0, s)`; loading the stored text gives the high score |
| GameStore.Store.UpdateHighScoreIfNeeded | src/store/gameStore.ts:114-119 | changes the high score only when `s` beats it; the result is the maximum, never lower; with the score at `s`, the new-high-score banner then shows exactly when `s > 0` and `s` is at least the previous best |
| GameStore.Store.ResetGame | src/store/gameStore.ts:120 | score 0 and phase menu; high score and difficulty kept |
| GameStore.Store.Hydrate | src/store/gameStore.ts:121-124 | the high score read from storage, hydrated set |
| GameStore.BannerAfterHighScoreUpdate | src/components/menus/GameOverMenu.tsx:7 | after the high-score update with final score `s`, the banner shows exactly when `s > 0` and `s` is at least the previous best; a positive score that only ties the previous best shows it too, and a lower one never does |
| GameStore.Store.PressControl | src/components/menus/GameOverMenu.tsx:9-16 | the phase of each menu handler; restart and main menu also zero the score; Escape resumes only from paused |
| GameEngine.Integrate | src/hooks/useGameEngine.ts:59-60 | velocity grows by `gravity·ts`, then the height moves by the new velocity |
| GameEngine.ClampCeiling | src/hooks/useGameEngine.ts:62-65 | a bird above the ceiling is put on it at rest; otherwise unchanged |
| GameEngine.CullAndSpawn | src/hooks/useGameEngine.ts:73-84 | cull, then exactly when due one unpassed pipe at `lastPipeX` and `lastPipeX` grows by 200; otherwise nothing appended and `lastPipeX` kept |
| GameEngine.Advance | src/hooks/useGameEngine.ts:86-92 | a pipe moves left by the shift and becomes passed exactly when it was or now scores |
| GameEngine.AdvanceAll | src/hooks/useGameEngine.ts:86-113 | each pipe advanced in place, same length and order |
| GameEngine.HitMatchesPhysics | src/hooks/useGameEngine.ts:94-112 | the engine's hit test equals variant A's `checkBirdPipeCollision` with width 60 and the gap size as gap height |
| GameEngine.CullMembers | src/hooks/useGameEngine.ts:73 | culling keeps exactly the pipes with `x + 60 > -50` |
| GameEngine.CullAscending | src/hooks/useGameEngine.ts:73 | culling keeps the left-to-right order |
| GameEngine.CullAndSpawnValid | src/hooks/useGameEngine.ts:73-84 | cull and spawn keep the pipes ordered and left of `lastPipeX` |
| GameEngine.AdvanceAllValid | src/hooks/useGameEngine.ts:86-87 | a common non-negative shift keeps the order and the bound |
| GameEngine.StepValid | src/hooks/useGameEngine.ts:51-118 | a frame with non-negative elapsed time keeps the pipe invariant |
| GameEngine.AdvanceCountsFlags | src/hooks/useGameEngine.ts:89-92 | the points of a frame equal the passed flags it turns on, so no pipe scores twice |
| GameEngine.ScoresOnce | src/hooks/useGameEngine.ts:89-92 | a pipe that scored cannot score again in any later frame |
| GameEngine.StepSpawnsAtMostOne | src/hooks/useGameEngine.ts:73-84 | a frame adds at most one pipe, and `lastPipeX` stays or grows by exactly 200 |
| GameEngine.SpawnOnlyWhenEmptyOnceAhead | src/hooks/useGameEngine.ts:75 | once `lastPipeX` has reached the canvas width a pipe spawns exactly when culling left none |
| GameEngine.GroundCrashFreezesPipes | src/hooks/useGameEngine.ts:67-71 | a ground crash ends the game with one collision cue, no points, and pipes and `lastPipeX` untouched |
| GameEngine.Engine.constructor | src/hooks/useGameEngine.ts:31-35 | bird at (100, 300) at rest with radius 15, no pipes, `lastPipeX` 400 |
| GameEngine.Engine.ResetGame | src/hooks/useGameEngine.ts:37-43 | back to that initial state |
| GameEngine.Engine.Flap | src/hooks/useGameEngine.ts:45-49 | only the velocity changes, to minus the flap force of the current difficulty; one flap cue |
| GameEngine.Engine.Update | src/hooks/useGameEngine.ts:51-118 | nothing changes unless playing; otherwise engine, store and cues are those of `Step`, with points added and game over on a crash; the pipe invariant is kept |
| GameEngine.Engine.MoveBird | src/hooks/useGameEngine.ts:59-65 | the bird becomes the clamped integration, the pipes are kept |
| GameEngine.Engine.CullAndSpawnPipes | src/hooks/useGameEngine.ts:73-84 | the engine becomes `CullAndSpawn` of its old state |
| GameEngine.Engine.AdvancePipes | src/hooks/useGameEngine.ts:86-113 | every pipe advanced, one point per scoring pipe, one collision cue per hit, game over after any hit with the loop carrying on |
| GameEngine.Engine.AdvancePipe | src/hooks/useGameEngine.ts:87-111 | one pipe scrolled and, if it passes the bird, marked and scored once; a hit adds a collision cue and sets game over; no other pipe changes |
| Scoring.FirstCrossed | src/hooks/useScoring.ts:11-13 | none exactly when no milestone lies in `(prev, score]`; otherwise the first one in list order that does |
| Scoring.MilestoneCues | src/hooks/useScoring.ts:10-17 | at most one cue, and only on an increase |
| Scoring.MilestoneCueIff | src/hooks/useScoring.ts:11-17 | with no zero milestone, the cue plays exactly when some milestone was crossed |
| Scoring.OneCueForSeveralMilestones | src/hooks/useScoring.ts:11-17 | going from 5 to 60 crosses 10, 25 and 50 and plays one cue, for 10 |
| Scoring.MilestoneRefiresAfterReset | src/hooks/useScoring.ts:21 | a decrease plays nothing, and after it reaching 10 again plays the cue again |
| Scoring.ScoringHook.constructor | src/hooks/useScoring.ts:7 | the hook remembers the first score it sees |
| Scoring.ScoringHook.OnScoreChange | src/hooks/useScoring.ts:9-22 | the cue of the first crossed milestone; on an increase the high score is offered to the store; the previous score is always overwritten |
| ScoreHud.FirstAbove | src/components/ui/ScoreHUD.tsx:27 | none exactly when no milestone is above the score; otherwise the first one in list order that is |
| ScoreHud.GetMilestoneStatus | src/components/ui/ScoreHUD.tsx:25-29 | reached exactly when the score is at least the milestone; next only for a listed milestone above the score |
| ScoreHud.NextIsSmallestAbove | src/components/ui/ScoreHUD.tsx:27-28 | on an ascending list a milestone is next exactly when it is above the score and its predecessor is not |
| ScoreHud.ExactlyOneNext | src/components/ui/ScoreHUD.tsx:25-29 | on an ascending list exactly one milestone is next while the score is below the last, none otherwise |
| ScoreHud.Celebration.constructor | src/components/ui/ScoreHUD.tsx:7-8 | no celebration, the first score remembered |
| ScoreHud.Celebration.OnScoreChange | src/components/ui/ScoreHUD.tsx:12-23 | on an increase the first crossed non-zero milestone is celebrated; the previous score is always overwritten |
| ScoreHud.Celebration.ClearCelebration | src/components/ui/ScoreHUD.tsx:19 | the timer clears the celebration |
| GameControls.LowerAscii | src/hooks/useGameControls.ts:9 | same length, ASCII capitals lowered, every other character kept |
| GameControls.HandleKeyDown | src/hooks/useGameControls.ts:8-24 | the phase changes exactly on `p` in playing or paused, toggling between them; the default is suppressed exactly for those and for space or arrow-up while playing |
| GameControls.PauseToggleInvolution | src/hooks/useGameControls.ts:11-19 | two presses of `p` restore playing or paused, since one press toggles once |
| GameControls.CapitalPToggles | src/hooks/useGameControls.ts:9-19 | `P` toggles like `p`, and menu and game over ignore it |
| GameControls.ArrowUpOnlySuppresses | src/hooks/useGameControls.ts:21-23 | arrow-up changes no phase and suppresses the default only while playing |
| SilentWav.LE16RoundTrip | scripts/generate-audio.cjs:25 | a 16-bit field reads back as the value written |
| SilentWav.LE32RoundTrip | scripts/generate-audio.cjs:19 | a 32-bit field reads back as the value written |
| SilentWav.LE16Canonical | scripts/generate-audio.cjs:25 | any two bytes are the encoding of what they decode to |
| SilentWav.LE32Canonical | scripts/generate-audio.cjs:19 | any four bytes are the encoding of what they decode to |
| SilentWav.RiffHeaderFields | scripts/generate-audio.cjs:18-20 | the RIFF header reads back as `RIFF`, the file size, `WAVE` |
| SilentWav.FmtChunkFields | scripts/generate-audio.cjs:23-30 | the `fmt ` chunk reads back as size 16, PCM format 1, one channel, the rate, twice the rate, block align 2, 16 bits |
| SilentWav.DataHeaderFields | scripts/generate-audio.cjs:33-34 | the data chunk header reads back as `data` and the data size |
| SilentWav.WavLayout | scripts/generate-audio.cjs:7-42 | length `44+2n`; RIFF at 0, size `36+2n` (the length less 8) at 4, WAVE at 8, `fmt ` at 12, 16/1/1/rate/`2·rate`/2/16 at 16-34, `data` at 36, `2n` at 40, zeros from 44 |
| SilentWav.FlapPlaceholderSizes | scripts/generate-audio.cjs:54 | 0.1 s at 44100 Hz: an 8864-byte file whose size fields read 8856 and 8820 and whose byte rate reads 88200 |
| SilentWav.WriteBytes | scripts/generate-audio.cjs:18 | the bytes copied in at the offset, the rest of the buffer kept |
| SilentWav.WriteU16LE | scripts/generate-audio.cjs:25 | a range error exactly when the value does not fit 16 bits; otherwise its encoding written at the offset |
| SilentWav.WriteU32LE | scripts/generate-audio.cjs:19 | a range error exactly when the value does not fit 32 bits; otherwise its encoding written at the offset |
| SilentWav.AppendWrite | scripts/generate-audio.cjs:17-34 | writing the next field after a written prefix of a zeroed buffer extends the prefix |
| SilentWav.WriteNextTag | scripts/generate-audio.cjs:20 | the written prefix grows by the tag |
| SilentWav.WriteNextU16 | scripts/generate-audio.cjs:29 | the written prefix grows by the field, or a range error |
| SilentWav.WriteNextU32 | scripts/generate-audio.cjs:34 | the written prefix grows by the field, or a range error |
| SilentWav.WriteRiffHeader | scripts/generate-audio.cjs:17-20 | the RIFF header written, or a range error exactly when the file size does not fit |
| SilentWav.WriteFmtChunk | scripts/generate-audio.cjs:22-30 | the `fmt ` chunk written, or a range error exactly when the rate or byte rate does not fit |
| SilentWav.WriteDataHeader | scripts/generate-audio.cjs:32-34 | the data chunk header written, or a range error exactly when the data size does not fit |
| SilentWav.CreateSilentWav | scripts/generate-audio.cjs:7-42 | a buffer exactly when every 32-bit field fits, and then its bytes are exactly the file `Wav` |

## Left out

- Canvas drawing, JSX layout and styling are presentation only. This covers `drawBackground`, `drawGround`, `drawBird`, `drawPipes` and `drawUI`, the canvas context checks, and the `requestAnimationFrame` re-arm in the frame loop.
- The parallax `backgroundOffset` and `groundOffset` of variant A's state record are visual only, and so is the `%` that wraps them. `updateConfig` is not part of the core either.
- Audio playback is not modelled. This covers the Web Audio manager, the audio store and the audio hooks. Cues are returned as values instead, and the rejection handlers of `playSound` are dropped.
- Timers and listener registration are dropped:
  - the one-second `setTimeout` of variant A's reset is the `ScheduledReset` event and the `resetScheduled` result;
  - the two-second timer of the celebration is `ClearCelebration`;
  - the key and Escape listeners are the handler functions.
- React closure staleness is not modelled. Each handler reads one snapshot of the state it sees. A second store write in the same callback, or a write after re-rendering, is not interleaved.
- Writing to `localStorage` can fail, and that failure is not modelled: the `storage` field always receives the text. A throwing read behaves like a missing value.
- Floating-point rounding is not modelled. Arithmetic on positions, velocities and times is exact `real` arithmetic.
- `GameStore.DecimalString`, `GameStore.LoadHighScore`, `GameStore.SaveLoadRoundTrip`: scores are unbounded integers. A JavaScript score is a double, so `String` writes 10^21 and above in exponent form (which `parseInt` reads back as its leading digit), and integers above 2^53 are not exact. Neither limit is modelled, so the round trip holds here for every integer while in the browser it holds only below 10^21 and exactly only up to 2^53.
- `GameControls.LowerAscii`: lowercases ASCII letters only. JavaScript lowercases all of Unicode. The key is compared only with `p`, a space and `arrowup`, and a non-ASCII key is equal to none of these either way.
- `SilentWav.CreateSilentWav`: `numSamples` is an input. The computation `Math.floor(sampleRate·duration)` and the file writes of the script are dropped.
- `SilentWav.CreateSilentWav`: the sample rate is an integer. A fractional rate, which `writeUInt32LE` would truncate, is not modelled. Nor is the allocation limit of `Buffer.alloc`.
- `CanvasStore.Store.UpdatePhysics`: it takes the random draw `r` as a parameter. It is used only when a pipe is spawned.
- `GameEngine.Engine.Update`: the phase gate reads the store's current phase rather than the phase captured at render. Within one frame these are the same.
