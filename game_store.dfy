/**
 * The store of the per-frame game (variant B): phase, difficulty, audio
 * settings, score, high score and milestones, with its setters. The
 * persistence collaborator is the `storage` field: the text kept under the
 * high-score key, `None` when nothing is stored (or reading it fails).
 * The button handlers of the menus are folded in as `PressControl`.
 */
module GameStore {
  import opened Wrappers

  datatype Phase = Menu | Playing | Paused | GameOver
  datatype Difficulty = Easy | Medium | Hard

  datatype AudioSettings = AudioSettings(masterVolume: real, musicVolume: real, sfxVolume: real, muted: bool)

  /** A partial update of the audio settings: only the fields given are changed. */
  datatype AudioSettingsPatch = AudioSettingsPatch(
    masterVolume: Option<real>, musicVolume: Option<real>, sfxVolume: Option<real>, muted: Option<bool>)

  datatype DifficultyParams = DifficultyParams(gapSize: real, pipeSpeed: real, gravity: real, flapForce: real)

  const DefaultAudioSettings: AudioSettings := AudioSettings(0.7, 0.6, 0.8, false)
  const InitialMilestones: seq<int> := [10, 25, 50, 100]

  function DifficultyPreset(d: Difficulty): DifficultyParams {
    match d
    case Easy => DifficultyParams(120.0, 3.0, 0.4, 8.0)
    case Medium => DifficultyParams(100.0, 4.5, 0.5, 7.0)
    case Hard => DifficultyParams(80.0, 6.0, 0.6, 6.0)
  }

  /** Position in the order easy, medium, hard. */
  function Rank(d: Difficulty): nat {
    match d
    case Easy => 0
    case Medium => 1
    case Hard => 2
  }

  /** Harder presets have smaller gaps, faster pipes, stronger gravity and weaker flaps. */
  lemma PresetsOrdered(a: Difficulty, b: Difficulty)
    requires Rank(a) < Rank(b)
    ensures DifficultyPreset(a).gapSize > DifficultyPreset(b).gapSize
    ensures DifficultyPreset(a).pipeSpeed < DifficultyPreset(b).pipeSpeed
    ensures DifficultyPreset(a).gravity < DifficultyPreset(b).gravity
    ensures DifficultyPreset(a).flapForce > DifficultyPreset(b).flapForce
  {
  }

  lemma InitialMilestonesAscending()
    ensures forall i, j :: 0 <= i < j < |InitialMilestones| ==> InitialMilestones[i] < InitialMilestones[j]
    ensures forall i :: 0 <= i < |InitialMilestones| ==> InitialMilestones[i] > 0
  {
  }

  function MergeAudioSettings(s: AudioSettings, patch: AudioSettingsPatch): (r: AudioSettings)
    ensures r.masterVolume == (if patch.masterVolume.Some? then patch.masterVolume.value else s.masterVolume)
    ensures r.musicVolume == (if patch.musicVolume.Some? then patch.musicVolume.value else s.musicVolume)
    ensures r.sfxVolume == (if patch.sfxVolume.Some? then patch.sfxVolume.value else s.sfxVolume)
    ensures r.muted == (if patch.muted.Some? then patch.muted.value else s.muted)
  {
    AudioSettings(
      match patch.masterVolume case Some(v) => v case None => s.masterVolume,
      match patch.musicVolume case Some(v) => v case None => s.musicVolume,
      match patch.sfxVolume case Some(v) => v case None => s.sfxVolume,
      match patch.muted case Some(v) => v case None => s.muted)
  }

  function IntMax(a: int, b: int): int { if a >= b then a else b }

  // ---------------------------------------------------------------------------
  // Decimal text of the stored high score

  predicate IsDigit(c: char) { '0' <= c <= '9' }

  function DigitValue(c: char): nat
    requires IsDigit(c)
  {
    (c as int) - ('0' as int)
  }

  function DigitChar(d: nat): (c: char)
    requires d < 10
    ensures IsDigit(c) && DigitValue(c) == d
  {
    (('0' as int) + d) as char
  }

  /** White space and line terminators as ECMAScript's parseInt skips them. */
  predicate IsJsWhitespace(c: char) {
    c == '\U{0009}' || c == '\U{000A}' || c == '\U{000B}' || c == '\U{000C}' || c == '\U{000D}' ||
    c == '\U{0020}' || c == '\U{00A0}' || c == '\U{1680}' || ('\U{2000}' <= c <= '\U{200A}') ||
    c == '\U{2028}' || c == '\U{2029}' || c == '\U{202F}' || c == '\U{205F}' || c == '\U{3000}' ||
    c == '\U{FEFF}'
  }

  function TrimStart(s: string): (t: string)
    ensures |t| <= |s| && t == s[|s| - |t|..]
    ensures |t| > 0 ==> !IsJsWhitespace(t[0])
    decreases |s|
  {
    if |s| > 0 && IsJsWhitespace(s[0]) then TrimStart(s[1..]) else s
  }

  /** The longest prefix of `s` made of decimal digits. */
  function LeadingDigits(s: string): (ds: string)
    ensures |ds| <= |s| && ds == s[..|ds|]
    ensures forall i :: 0 <= i < |ds| ==> IsDigit(ds[i])
    ensures |ds| < |s| ==> !IsDigit(s[|ds|])
    decreases |s|
  {
    if |s| > 0 && IsDigit(s[0]) then [s[0]] + LeadingDigits(s[1..]) else []
  }

  /** The number a string of decimal digits denotes. */
  function DigitsValue(ds: string): nat
    requires forall i :: 0 <= i < |ds| ==> IsDigit(ds[i])
    decreases |ds|
  {
    if |ds| == 0 then 0 else DigitsValue(ds[..|ds| - 1]) * 10 + DigitValue(ds[|ds| - 1])
  }

  /**
   * `parseInt(s, 10)`: skip leading white space, take an optional sign and the
   * longest run of digits after it; `None` (NaN) when there is no digit.
   */
  function ParseInt(s: string): (r: Option<int>)
    ensures var t := TrimStart(s);
            var u := if |t| > 0 && (t[0] == '+' || t[0] == '-') then t[1..] else t;
            (r.None? <==> |u| == 0 || !IsDigit(u[0])) &&
            (r.Some? ==> r.value == (if t[0] == '-' then -1 else 1) * DigitsValue(LeadingDigits(u)))
    ensures r.Some? && r.value < 0 ==> TrimStart(s)[0] == '-'
  {
    var t := TrimStart(s);
    var sign := if |t| > 0 && t[0] == '-' then -1 else 1;
    var u := if |t| > 0 && (t[0] == '+' || t[0] == '-') then t[1..] else t;
    var z := LeadingDigits(u);
    if |z| == 0 then None else Some(sign * DigitsValue(z))
  }

  /**
   * `String(n)` for a natural number below 10^21, where JavaScript still writes
   * plain decimal digits: the digits without leading zeros. The model takes no
   * such bound; see the README.
   */
  function DecimalString(n: nat): (s: string)
    ensures |s| > 0
    ensures forall i :: 0 <= i < |s| ==> IsDigit(s[i])
    ensures s[0] == '0' ==> n == 0
    decreases n
  {
    if n < 10 then [DigitChar(n)] else DecimalString(n / 10) + [DigitChar(n % 10)]
  }

  /** The high score read back from storage: never negative, 0 for missing, empty or non-numeric text. */
  function LoadHighScore(stored: Option<string>): (n: nat)
    ensures stored == None || stored == Some("") ==> n == 0
    ensures stored.Some? && ParseInt(stored.value).None? ==> n == 0
    ensures n > 0 ==> stored.Some? && ParseInt(stored.value) == Some(n as int)
    ensures stored.Some? && |stored.value| > 0 && ParseInt(stored.value).Some? ==>
              n == IntMax(0, ParseInt(stored.value).value)
  {
    match stored
    case None => 0
    case Some(text) =>
      if |text| == 0 then 0
      else match ParseInt(text)
        case None => 0
        case Some(parsed) => IntMax(0, parsed)
  }

  /** The text written to storage for a high score: the decimal form of its non-negative part. */
  function SavedHighScore(score: int): (text: string)
    ensures |text| > 0 && forall i :: 0 <= i < |text| ==> IsDigit(text[i])
    ensures DigitsValue(text) == IntMax(0, score)
    ensures text[0] == '0' ==> score <= 0
  {
    DigitsValueOfDecimal(IntMax(0, score));
    DecimalString(IntMax(0, score))
  }

  lemma {:induction false} DigitsValueOfDecimal(n: nat)
    ensures DigitsValue(DecimalString(n)) == n
    decreases n
  {
    if n >= 10 {
      DigitsValueOfDecimal(n / 10);
      var s := DecimalString(n);
      assert s[..|s| - 1] == DecimalString(n / 10);
    }
  }

  lemma {:induction false} LeadingDigitsOfDigits(s: string)
    requires forall i :: 0 <= i < |s| ==> IsDigit(s[i])
    ensures LeadingDigits(s) == s
    decreases |s|
  {
    if |s| > 0 {
      LeadingDigitsOfDigits(s[1..]);
    }
  }

  /** A digit is neither white space nor a sign. */
  lemma DigitIsPlain(c: char)
    requires IsDigit(c)
    ensures !IsJsWhitespace(c) && c != '+' && c != '-'
  {
  }

  lemma ParseDigits(s: string)
    requires |s| > 0 && forall i :: 0 <= i < |s| ==> IsDigit(s[i])
    ensures ParseInt(s) == Some(DigitsValue(s))
  {
    DigitIsPlain(s[0]);
    assert TrimStart(s) == s;
    LeadingDigitsOfDigits(s);
  }

  /** parseInt reads back exactly the number `String` wrote. */
  lemma ParseDecimal(n: nat)
    ensures ParseInt(DecimalString(n)) == Some(n)
  {
    ParseDigits(DecimalString(n));
    DigitsValueOfDecimal(n);
  }

  /** Saving any score and loading it back gives its non-negative part. */
  lemma SaveLoadRoundTrip(score: int)
    ensures LoadHighScore(Some(SavedHighScore(score))) == IntMax(0, score)
  {
    ParseDecimal(IntMax(0, score));
  }

  /** A stored negative number loads as 0. */
  lemma LoadNegativeIsZero(n: nat)
    ensures LoadHighScore(Some("-" + DecimalString(n))) == 0
  {
    var s := "-" + DecimalString(n);
    assert !IsJsWhitespace(s[0]);
    assert TrimStart(s) == s;
    assert s[1..] == DecimalString(n);
    LeadingDigitsOfDigits(DecimalString(n));
  }

  // ---------------------------------------------------------------------------
  // Menu controls

  /** The buttons of the menus and the Escape key. */
  datatype Control = StartButton | PauseButton | ResumeButton | RestartButton | MainMenuButton | EscapeKey

  /**
   * Whether a control is on screen in a phase: the main menu in `Menu`, the pause
   * button while `Playing`, the pause menu in `Paused`, the game-over menu in
   * `GameOver`; the Escape listener is installed whenever the game is not playing.
   */
  predicate ControlShown(c: Control, phase: Phase) {
    match c
    case StartButton => phase == Menu
    case PauseButton => phase == Playing
    case ResumeButton => phase == Paused
    case RestartButton => phase == Paused || phase == GameOver
    case MainMenuButton => phase == Paused || phase == GameOver
    case EscapeKey => phase != Playing
  }

  /** The phase a control's handler leaves behind. */
  function ControlPhase(c: Control, phase: Phase): Phase {
    match c
    case StartButton => Playing
    case PauseButton => Paused
    case ResumeButton => Playing
    case RestartButton => Playing
    case MainMenuButton => Menu
    case EscapeKey => if phase == Paused then Playing else phase
  }

  /**
   * The menu graph: start leaves the menu for play, pause enters `Paused` only from
   * play, and from `Paused` or `GameOver` the menus lead to play or to the menu.
   */
  lemma MenuGraph(c: Control, phase: Phase)
    requires ControlShown(c, phase)
    ensures phase == Menu ==> ControlPhase(c, phase) in {Menu, Playing}
    ensures phase == Playing ==> ControlPhase(c, phase) == Paused
    ensures phase == Paused ==> ControlPhase(c, phase) in {Playing, Menu}
    ensures phase == GameOver ==> ControlPhase(c, phase) in {Playing, Menu, GameOver}
    ensures ControlPhase(c, phase) == Paused ==> phase == Playing
    ensures ControlPhase(c, phase) != GameOver || phase == GameOver
  {
  }

  // ---------------------------------------------------------------------------
  // The store

  datatype StoreState = StoreState(
    gamePhase: Phase, difficulty: Difficulty, audioSettings: AudioSettings,
    score: int, highScore: int, isHydrated: bool, storage: Option<string>)

  /** The game-over menu's new-high-score banner: the score equals the best and is positive. */
  predicate IsNewHighScore(st: StoreState) {
    st.score == st.highScore && st.score > 0
  }

  /**
   * The banner after the end-of-game high-score update: it shows exactly when the
   * final score is positive and at least the previous best. A score that only
   * ties an earlier best therefore shows it too.
   */
  lemma BannerAfterHighScoreUpdate(st: StoreState, s: int)
    requires st.score == s
    ensures IsNewHighScore(st.(highScore := IntMax(st.highScore, s))) <==> s > 0 && s >= st.highScore
    ensures s > 0 && s == st.highScore ==> IsNewHighScore(st.(highScore := IntMax(st.highScore, s)))
    ensures s > 0 && s < st.highScore ==> !IsNewHighScore(st.(highScore := IntMax(st.highScore, s)))
  {
  }

  class Store {
    var gamePhase: Phase
    var difficulty: Difficulty
    var audioSettings: AudioSettings
    var score: int
    var highScore: int
    const milestones: seq<int>
    var isHydrated: bool
    var storage: Option<string>

    function State(): StoreState
      reads this
    {
      StoreState(gamePhase, difficulty, audioSettings, score, highScore, isHydrated, storage)
    }

    /** The high score is never negative. */
    predicate Valid()
      reads this
    {
      highScore >= 0
    }

    /** A fresh store beside a persistence collaborator that holds `stored`. */
    constructor (stored: Option<string>)
      ensures State() == StoreState(Menu, Medium, DefaultAudioSettings, 0, 0, false, stored)
      ensures milestones == InitialMilestones
      ensures Valid()
    {
      gamePhase, difficulty, audioSettings := Menu, Medium, DefaultAudioSettings;
      score, highScore := 0, 0;
      milestones := InitialMilestones;
      isHydrated := false;
      storage := stored;
    }

    /** The preset of the current difficulty. */
    function GetDifficultyParams(): (p: DifficultyParams)
      reads this
      ensures p.gapSize > 0.0 && p.pipeSpeed > 0.0 && p.gravity > 0.0 && p.flapForce > 0.0
      ensures p == DifficultyPreset(difficulty)
    {
      DifficultyPreset(difficulty)
    }

    /** Any phase is accepted in any phase. */
    method SetGamePhase(phase: Phase)
      modifies this
      ensures State() == old(State()).(gamePhase := phase)
    {
      gamePhase := phase;
    }

    /** Any difficulty is accepted in any phase: the store has no lock. */
    method SetDifficulty(d: Difficulty)
      modifies this
      ensures State() == old(State()).(difficulty := d)
    {
      difficulty := d;
    }

    method UpdateAudioSettings(patch: AudioSettingsPatch)
      modifies this
      ensures State() == old(State()).(audioSettings := MergeAudioSettings(old(audioSettings), patch))
    {
      audioSettings := MergeAudioSettings(audioSettings, patch);
    }

    method SetScore(s: int)
      modifies this
      ensures State() == old(State()).(score := s)
    {
      score := s;
    }

    method AddScore(points: int)
      modifies this
      ensures State() == old(State()).(score := old(score) + points)
    {
      score := score + points;
    }

    /** Clamps to 0 from below, persists the decimal text and keeps the same value. */
    method SetHighScore(s: int)
      modifies this
      ensures State() == old(State()).(highScore := IntMax(0, s), storage := Some(SavedHighScore(s)))
      ensures LoadHighScore(storage) == highScore
      ensures Valid()
    {
      var validScore := IntMax(0, s);
      storage := Some(DecimalString(validScore));
      highScore := validScore;
      SaveLoadRoundTrip(s);
    }

    /** Raises the high score only when `s` beats it; it never goes down here. */
    method UpdateHighScoreIfNeeded(s: int)
      requires Valid()
      modifies this
      ensures s > old(highScore) ==> State() == old(State()).(highScore := s, storage := Some(SavedHighScore(s)))
      ensures s <= old(highScore) ==> State() == old(State())
      ensures highScore == IntMax(old(highScore), s)
      ensures score == s ==> (IsNewHighScore(State()) <==> s > 0 && s >= old(highScore))
      ensures Valid()
    {
      if s > highScore {
        SetHighScore(s);
      }
    }

    /** Score back to 0 and phase back to the menu; high score and difficulty stay. */
    method ResetGame()
      modifies this
      ensures State() == old(State()).(score := 0, gamePhase := Menu)
    {
      score, gamePhase := 0, Menu;
    }

    /** Reads the stored high score. */
    method Hydrate()
      modifies this
      ensures State() == old(State()).(highScore := LoadHighScore(old(storage)), isHydrated := true)
      ensures Valid()
    {
      highScore := LoadHighScore(storage);
      isHydrated := true;
    }

    /** The handler of a menu control; restart and main menu both reset the game first. */
    method PressControl(c: Control)
      modifies this
      ensures gamePhase == ControlPhase(c, old(gamePhase))
      ensures c == RestartButton || c == MainMenuButton ==>
                State() == old(State()).(score := 0, gamePhase := gamePhase)
      ensures c != RestartButton && c != MainMenuButton ==>
                State() == old(State()).(gamePhase := gamePhase)
    {
      match c
      case StartButton => SetGamePhase(Playing);
      case PauseButton => SetGamePhase(Paused);
      case ResumeButton => SetGamePhase(Playing);
      case RestartButton =>
        ResetGame();
        SetGamePhase(Playing);
      case MainMenuButton => ResetGame();
      case EscapeKey =>
        if gamePhase == Paused {
          SetGamePhase(Playing);
        }
    }
  }
}
