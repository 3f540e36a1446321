/**
 * The game state of game.js as a value, and one transition function per
 * operation that changes it. The class in simon.dfy updates the same state in
 * place and is proved to follow these functions step for step.
 */
module GameState {
  import opened Colours

  /** What a JavaScript array read yields: `undefined` outside the array. */
  datatype Element = Undefined | Defined(colour: Colour)

  /** `s[i]` as JavaScript evaluates it. */
  function ElementAt(s: seq<Colour>, i: int): (e: Element)
    ensures e.Defined? <==> 0 <= i < |s|
    ensures e.Defined? ==> e.colour == s[i]
  {
    if 0 <= i < |s| then Defined(s[i]) else Undefined
  }

  /**
   * The global variables of game.js. `pendingAdvances` counts the
   * `nextSequence` timers scheduled by a completed round that have not fired yet.
   */
  datatype State = State(
    gamePattern: seq<Colour>,
    userClickedPattern: seq<Colour>,
    started: bool,
    level: int,
    highScore: int,
    effectsEnabled: bool,
    pendingAdvances: nat)

  /**
   * The invariant of every reachable state: the level is the pattern's length,
   * the high score is not negative, and a running game has shown at least one
   * colour and holds an attempt that is a prefix of the pattern.
   */
  predicate Inv(s: State)
  {
    && s.level == |s.gamePattern|
    && s.highScore >= 0
    && (s.started ==> |s.gamePattern| >= 1 && s.userClickedPattern <= s.gamePattern)
  }

  /** The state when the page has loaded. */
  function Initial(): (s: State)
    ensures Inv(s)
    ensures !s.started && s.gamePattern == [] && s.userClickedPattern == [] && s.level == 0
    ensures s.highScore == 0 && s.effectsEnabled && s.pendingAdvances == 0
  {
    State([], [], false, 0, 0, true, 0)
  }

  /** nextSequence: a new round with one more colour, drawn by `randomNumber`. */
  function NextSequence(s: State, randomNumber: ColourIndex): (t: State)
    ensures |t.gamePattern| == |s.gamePattern| + 1
    ensures t.gamePattern[..|s.gamePattern|] == s.gamePattern
    ensures t.gamePattern[|s.gamePattern|] == ButtonColours[randomNumber]
    ensures t.level == s.level + 1
    ensures t.userClickedPattern == []
    ensures t.started == s.started && t.highScore == s.highScore
    ensures t.effectsEnabled == s.effectsEnabled && t.pendingAdvances == s.pendingAdvances
    ensures Inv(s) ==> Inv(t)
  {
    s.(userClickedPattern := [],
       level := s.level + 1,
       gamePattern := s.gamePattern + [ButtonColours[randomNumber]])
  }

  /** startOver: back to level 0 with an empty pattern, waiting for a start. */
  function StartOver(s: State): (t: State)
    ensures !t.started && t.level == 0 && t.gamePattern == []
    ensures t.userClickedPattern == s.userClickedPattern && t.highScore == s.highScore
    ensures t.effectsEnabled == s.effectsEnabled && t.pendingAdvances == s.pendingAdvances
    ensures s.highScore >= 0 ==> Inv(t)
  {
    s.(level := 0, gamePattern := [], started := false)
  }

  /** gameOver: the high score becomes the larger of itself and the final score, then startOver. */
  function GameOver(s: State): (t: State)
    ensures t.highScore >= s.highScore && t.highScore >= s.level - 1
    ensures t.highScore == s.highScore || t.highScore == s.level - 1
    ensures !t.started && t.level == 0 && t.gamePattern == []
    ensures t.userClickedPattern == s.userClickedPattern
    ensures t.effectsEnabled == s.effectsEnabled && t.pendingAdvances == s.pendingAdvances
    ensures s.highScore >= 0 ==> Inv(t)
  {
    var best := if s.highScore >= s.level - 1 then s.highScore else s.level - 1;
    StartOver(s.(highScore := best))
  }

  /** The three outcomes of checking one click. */
  datatype Verdict = AwaitingMore | RoundComplete | Mismatch

  /**
   * The comparison checkAnswer makes: only the entries at `currentLevel` are
   * compared, and a round is complete when they agree and the attempt is as long
   * as the pattern.
   */
  function Judge(user: seq<Colour>, pattern: seq<Colour>, currentLevel: int): (v: Verdict)
    ensures 0 <= currentLevel < |user| ==>
              (v == Mismatch <==> currentLevel >= |pattern| || user[currentLevel] != pattern[currentLevel])
    ensures v == RoundComplete ==> |user| == |pattern|
    ensures v == AwaitingMore ==> |user| != |pattern|
  {
    if ElementAt(user, currentLevel) == ElementAt(pattern, currentLevel) then
      if |user| == |pattern| then RoundComplete else AwaitingMore
    else
      Mismatch
  }

  /**
   * checkAnswer: a complete round schedules one more advance, a mismatch ends
   * the game, and otherwise nothing happens.
   */
  function CheckAnswer(s: State, currentLevel: int): (t: State)
    ensures t.pendingAdvances ==
              if Judge(s.userClickedPattern, s.gamePattern, currentLevel) == RoundComplete
              then s.pendingAdvances + 1 else s.pendingAdvances
    ensures Judge(s.userClickedPattern, s.gamePattern, currentLevel) != Mismatch ==>
              t.(pendingAdvances := s.pendingAdvances) == s
    ensures Judge(s.userClickedPattern, s.gamePattern, currentLevel) == Mismatch ==>
              t == GameOver(s)
  {
    match Judge(s.userClickedPattern, s.gamePattern, currentLevel)
    case AwaitingMore => s
    case RoundComplete => s.(pendingAdvances := s.pendingAdvances + 1)
    case Mismatch => GameOver(s)
  }

  /** Whether a click of `colour` agrees with the pattern at the index it will be stored at. */
  predicate ClickMatches(s: State, colour: Colour)
  {
    |s.userClickedPattern| < |s.gamePattern| && s.gamePattern[|s.userClickedPattern|] == colour
  }

  /**
   * The click handler of a colour button: ignored before a start, otherwise
   * the colour is recorded and the newest click is checked.
   */
  function ButtonClick(s: State, colour: Colour): (t: State)
    ensures !s.started ==> t == s
    ensures s.started ==> t.userClickedPattern == s.userClickedPattern + [colour]
    ensures s.started && ClickMatches(s, colour) ==>
              t == s.(userClickedPattern := s.userClickedPattern + [colour],
                      pendingAdvances := s.pendingAdvances +
                        if |s.userClickedPattern| + 1 == |s.gamePattern| then 1 else 0)
    ensures s.started && !ClickMatches(s, colour) ==>
              !t.started && t.gamePattern == [] && t.level == 0 &&
              t.highScore == (if s.highScore >= s.level - 1 then s.highScore else s.level - 1)
    ensures t.highScore >= s.highScore
    ensures t.effectsEnabled == s.effectsEnabled
  {
    if !s.started then s
    else
      var pressed := s.(userClickedPattern := s.userClickedPattern + [colour]);
      CheckAnswer(pressed, |pressed.userClickedPattern| - 1)
  }

  /** startGame: runs one nextSequence and marks the game started, unless it is already running. */
  function StartGame(s: State, randomNumber: ColourIndex): (t: State)
    ensures s.started ==> t == s
    ensures !s.started ==> t.started
    ensures !s.started ==> t.gamePattern == s.gamePattern + [ButtonColours[randomNumber]]
    ensures !s.started ==> t.level == s.level + 1 && t.userClickedPattern == []
    ensures t.highScore == s.highScore && t.effectsEnabled == s.effectsEnabled
    ensures t.pendingAdvances == s.pendingAdvances
    ensures Inv(s) ==> Inv(t)
  {
    if !s.started then NextSequence(s, randomNumber).(started := true) else s
  }

  /**
   * A scheduled `nextSequence` fires. Nothing checks whether the game that
   * scheduled it is still running.
   */
  function FirePendingAdvance(s: State, randomNumber: ColourIndex): (t: State)
    requires s.pendingAdvances > 0
    ensures t.pendingAdvances == s.pendingAdvances - 1
    ensures t.gamePattern == s.gamePattern + [ButtonColours[randomNumber]]
    ensures t.level == s.level + 1 && t.userClickedPattern == []
    ensures t.started == s.started && t.highScore == s.highScore
    ensures t.effectsEnabled == s.effectsEnabled
    ensures Inv(s) ==> Inv(t)
  {
    NextSequence(s.(pendingAdvances := s.pendingAdvances - 1), randomNumber)
  }

  /** toggleEffects: flips the effects setting and nothing else. */
  function ToggleEffects(s: State): (t: State)
    ensures t.effectsEnabled != s.effectsEnabled
    ensures t.(effectsEnabled := s.effectsEnabled) == s
  {
    s.(effectsEnabled := !s.effectsEnabled)
  }

  /** The gate at the head of playSound: whether the named sound is played at all. */
  function PlaySoundProceeds(effectsEnabled: bool, name: string): (proceeds: bool)
    ensures name == "wrong" ==> proceeds
    ensures name != "wrong" ==> proceeds == effectsEnabled
  {
    !(!effectsEnabled && name != "wrong")
  }

  /** Everything that can happen to the game: the page's event handlers and the round timer. */
  datatype Event =
    | StartTrigger(randomNumber: ColourIndex)
    | ButtonPress(colour: Colour)
    | AdvanceTimer(randomNumber: ColourIndex)
    | EffectsToggle

  /** One event; a timer event when no advance is pending is no event at all. */
  function Apply(s: State, e: Event): (t: State)
  {
    match e
    case StartTrigger(r) => StartGame(s, r)
    case ButtonPress(c) => ButtonClick(s, c)
    case AdvanceTimer(r) => if s.pendingAdvances > 0 then FirePendingAdvance(s, r) else s
    case EffectsToggle => ToggleEffects(s)
  }

  /** The state after a sequence of events, in order. */
  function Run(s: State, events: seq<Event>): (t: State)
    decreases |events|
  {
    if events == [] then s else Run(Apply(s, events[0]), events[1..])
  }
}
