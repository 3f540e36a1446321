/**
 * The page's game state, updated in place as game.js updates its global
 * variables. Each method is proved to move the fields exactly as the
 * transition function of the same name in GameState moves a State value.
 */
module SimonGame {
  import opened Colours
  import GameState
  import GameProperties

  class Simon {
    var gamePattern: seq<Colour>
    var userClickedPattern: seq<Colour>
    var started: bool
    var level: int
    var highScore: int
    var effectsEnabled: bool
    /** `nextSequence` timers scheduled by completed rounds that have not fired yet. */
    var pendingAdvances: nat

    /** The fields as one value. */
    function Snapshot(): (s: GameState.State)
      reads this
    {
      GameState.State(gamePattern, userClickedPattern, started, level, highScore, effectsEnabled, pendingAdvances)
    }

    ghost predicate Valid()
      reads this
    {
      GameState.Inv(Snapshot())
    }

    /** The globals as the page sets them up when it loads. */
    constructor ()
      ensures Snapshot() == GameState.Initial()
      ensures Valid()
    {
      gamePattern := [];
      userClickedPattern := [];
      started := false;
      level := 0;
      highScore := 0;
      effectsEnabled := true;
      pendingAdvances := 0;
    }

    method NextSequence(randomNumber: ColourIndex)
      modifies this
      ensures Snapshot() == GameState.NextSequence(old(Snapshot()), randomNumber)
      ensures old(Valid()) ==> Valid()
    {
      userClickedPattern := [];
      level := level + 1;
      var randomChosenColour := ButtonColours[randomNumber];
      gamePattern := gamePattern + [randomChosenColour];
      var _ := PlaySound(ColourName(randomChosenColour));
    }

    method CheckAnswer(currentLevel: int)
      modifies this
      ensures Snapshot() == GameState.CheckAnswer(old(Snapshot()), currentLevel)
    {
      if GameState.ElementAt(userClickedPattern, currentLevel) == GameState.ElementAt(gamePattern, currentLevel) {
        if |userClickedPattern| == |gamePattern| {
          pendingAdvances := pendingAdvances + 1;
        }
      } else {
        GameOver();
      }
    }

    method GameOver()
      modifies this
      ensures Snapshot() == GameState.GameOver(old(Snapshot()))
      ensures old(Valid()) ==> Valid()
    {
      var _ := PlaySound("wrong");
      highScore := if highScore >= level - 1 then highScore else level - 1;
      StartOver();
    }

    method StartOver()
      modifies this
      ensures Snapshot() == GameState.StartOver(old(Snapshot()))
      ensures old(Valid()) ==> Valid()
    {
      level := 0;
      gamePattern := [];
      started := false;
    }

    method StartGame(randomNumber: ColourIndex)
      requires Valid()
      modifies this
      ensures Snapshot() == GameState.StartGame(old(Snapshot()), randomNumber)
      ensures Valid()
    {
      if !started {
        NextSequence(randomNumber);
        started := true;
      }
    }

    /** The click handler of the colour buttons. */
    method ButtonClick(colour: Colour)
      requires Valid()
      modifies this
      ensures Snapshot() == GameState.ButtonClick(old(Snapshot()), colour)
      ensures Valid()
    {
      GameProperties.ClickOutcome(Snapshot(), colour);
      if !started {
        return;
      }
      userClickedPattern := userClickedPattern + [colour];
      var _ := PlaySound(ColourName(colour));
      CheckAnswer(|userClickedPattern| - 1);
    }

    /** A `nextSequence` scheduled by a completed round fires, whether or not a game is running. */
    method FirePendingAdvance(randomNumber: ColourIndex)
      requires Valid() && pendingAdvances > 0
      modifies this
      ensures Snapshot() == GameState.FirePendingAdvance(old(Snapshot()), randomNumber)
      ensures Valid()
    {
      pendingAdvances := pendingAdvances - 1;
      NextSequence(randomNumber);
    }

    method ToggleEffects()
      modifies this
      ensures Snapshot() == GameState.ToggleEffects(old(Snapshot()))
      ensures old(Valid()) ==> Valid()
    {
      effectsEnabled := !effectsEnabled;
    }

    /** Whether playSound goes on to play the named sound. */
    method PlaySound(name: string) returns (proceeds: bool)
      ensures proceeds == GameState.PlaySoundProceeds(effectsEnabled, name)
    {
      if !effectsEnabled && name != "wrong" {
        return false;
      }
      proceeds := true;
    }
  }
}
