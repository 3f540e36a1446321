/** What the game promises across operations and across whole runs of events. */
module GameProperties {
  import opened Colours
  import opened GameState

  /** Every event keeps the invariant. */
  lemma StepPreservesInv(s: State, e: Event)
    requires Inv(s)
    ensures Inv(Apply(s, e))
  {
  }

  /** Any run of events keeps the invariant. */
  lemma {:induction false} RunPreservesInv(s: State, events: seq<Event>)
    requires Inv(s)
    ensures Inv(Run(s, events))
    decreases |events|
  {
    if events != [] {
      StepPreservesInv(s, events[0]);
      RunPreservesInv(Apply(s, events[0]), events[1..]);
    }
  }

  /**
   * In every state the page can reach, the level equals the pattern's length,
   * stale timers included.
   */
  lemma LevelEqualsPatternLength(events: seq<Event>)
    ensures Run(Initial(), events).level == |Run(Initial(), events).gamePattern|
    ensures Run(Initial(), events).highScore >= 0
  {
    RunPreservesInv(Initial(), events);
  }

  /**
   * A click in a running game either leaves the attempt a prefix of the
   * pattern with the game still running, or has reset the game: exactly one.
   */
  lemma ClickOutcome(s: State, colour: Colour)
    requires Inv(s)
    ensures Inv(ButtonClick(s, colour))
    ensures s.started ==>
      var t := ButtonClick(s, colour);
      (t.userClickedPattern <= t.gamePattern && t.started)
        != (!t.started && t.gamePattern == [] && t.level == 0)
  {
  }

  /**
   * A click in a running game schedules the next round exactly when it matches
   * the pattern at its own index and completes the attempt; otherwise it
   * schedules nothing.
   */
  lemma ClickSchedulesAdvanceIff(s: State, colour: Colour)
    requires s.started
    ensures var n := |s.userClickedPattern|;
      ButtonClick(s, colour).pendingAdvances ==
        if n < |s.gamePattern| && s.gamePattern[n] == colour && n + 1 == |s.gamePattern|
        then s.pendingAdvances + 1 else s.pendingAdvances
  {
  }

  /**
   * A click at an index the pattern does not reach (a click after the round
   * was completed) is a mismatch and ends the game.
   */
  lemma ClickBeyondPatternEndsGame(s: State, colour: Colour)
    requires s.started && |s.userClickedPattern| >= |s.gamePattern|
    ensures var t := ButtonClick(s, colour);
      !t.started && t.gamePattern == [] && t.level == 0
  {
  }

  /**
   * checkAnswer re-checks nothing but the newest click: two attempts of the
   * same length that end in the same colour get the same verdict, whatever
   * their earlier entries.
   */
  lemma JudgeSeesOnlyNewestClick(a: seq<Colour>, b: seq<Colour>, pattern: seq<Colour>, colour: Colour)
    requires |a| == |b|
    ensures Judge(a + [colour], pattern, |a|) == Judge(b + [colour], pattern, |b|)
  {
  }

  /** startGame on a running game does nothing, so starting twice is starting once. */
  lemma StartGameIdempotent(s: State, r1: ColourIndex, r2: ColourIndex)
    ensures StartGame(StartGame(s, r1), r2) == StartGame(s, r1)
  {
  }

  /** No event lowers the high score. */
  lemma StepKeepsHighScore(s: State, e: Event)
    ensures Apply(s, e).highScore >= s.highScore
  {
  }

  /** The high score never decreases over any run of events. */
  lemma {:induction false} RunKeepsHighScore(s: State, events: seq<Event>)
    ensures Run(s, events).highScore >= s.highScore
    decreases |events|
  {
    if events != [] {
      StepKeepsHighScore(s, events[0]);
      RunKeepsHighScore(Apply(s, events[0]), events[1..]);
    }
  }

  /** Toggling the effects twice restores the state. */
  lemma ToggleTwiceRestores(s: State)
    ensures ToggleEffects(ToggleEffects(s)) == s
  {
  }

  /** The game-over sound plays whatever the setting; a button's sound only with effects on. */
  lemma SoundGate(effectsEnabled: bool, c: Colour)
    ensures PlaySoundProceeds(effectsEnabled, "wrong")
    ensures PlaySoundProceeds(effectsEnabled, ColourName(c)) == effectsEnabled
  {
  }

  /** Running two event sequences one after the other is running their concatenation. */
  lemma {:induction false} RunAppend(s: State, a: seq<Event>, b: seq<Event>)
    ensures Run(s, a + b) == Run(Run(s, a), b)
    decreases |a|
  {
    if a != [] {
      assert (a + b)[0] == a[0];
      assert (a + b)[1..] == a[1..] + b;
      assert Run(s, a + b) == Run(Apply(s, a[0]), a[1..] + b);
      RunAppend(Apply(s, a[0]), a[1..], b);
    } else {
      assert a + b == b;
    }
  }

  /** The clicks that reproduce a pattern, in order. */
  function Presses(pattern: seq<Colour>): (events: seq<Event>)
    ensures |events| == |pattern|
    ensures forall i :: 0 <= i < |pattern| ==> events[i] == ButtonPress(pattern[i])
  {
    if pattern == [] then [] else [ButtonPress(pattern[0])] + Presses(pattern[1..])
  }

  /**
   * Clicking the rest of the pattern, from an attempt that is correct so far,
   * completes the round: the attempt is the whole pattern, one advance is
   * scheduled, and nothing else changes.
   */
  lemma {:induction false} CorrectClicksCompleteRound(s: State, k: nat)
    requires Inv(s) && s.started
    requires k < |s.gamePattern| && s.userClickedPattern == s.gamePattern[..k]
    ensures Run(s, Presses(s.gamePattern[k..])) ==
              s.(userClickedPattern := s.gamePattern, pendingAdvances := s.pendingAdvances + 1)
    decreases |s.gamePattern| - k
  {
    var p := s.gamePattern;
    assert p[k..][1..] == p[k + 1..];
    assert Presses(p[k..]) == [ButtonPress(p[k])] + Presses(p[k + 1..]);
    var next := Apply(s, ButtonPress(p[k]));
    assert p[..k] + [p[k]] == p[..k + 1];
    assert Judge(p[..k + 1], p, k) != Mismatch;
    if k + 1 == |p| {
      assert p[..k + 1] == p;
      assert next == s.(userClickedPattern := p, pendingAdvances := s.pendingAdvances + 1);
      assert Presses(p[k + 1..]) == [];
    } else {
      assert next == s.(userClickedPattern := p[..k + 1]);
      CorrectClicksCompleteRound(next, k + 1);
    }
  }

  /** The pattern that the random draws `draws` build, one colour per draw. */
  function PatternOf(draws: seq<ColourIndex>): (pattern: seq<Colour>)
    ensures |pattern| == |draws|
    ensures forall i :: 0 <= i < |draws| ==> pattern[i] == ButtonColours[draws[i]]
  {
    if draws == [] then [] else PatternOf(draws[..|draws| - 1]) + [ButtonColours[draws[|draws| - 1]]]
  }

  /**
   * A flawless game: a start, then for every later draw one completed round
   * followed by its timer.
   */
  function FlawlessGame(draws: seq<ColourIndex>): (events: seq<Event>)
    requires |draws| >= 1
    decreases |draws|
  {
    if |draws| == 1 then [StartTrigger(draws[0])]
    else
      var earlier := draws[..|draws| - 1];
      FlawlessGame(earlier) + Presses(PatternOf(earlier)) + [AdvanceTimer(draws[|draws| - 1])]
  }

  /**
   * One flawless round in a running game with an empty attempt: clicking the
   * whole pattern and letting its timer fire adds the drawn colour and one
   * level, and leaves the attempt empty again.
   */
  lemma CompletedRoundAdvances(s: State, draw: ColourIndex)
    requires Inv(s) && s.started && s.userClickedPattern == []
    ensures Run(s, Presses(s.gamePattern) + [AdvanceTimer(draw)]) ==
              s.(level := s.level + 1, gamePattern := s.gamePattern + [ButtonColours[draw]])
  {
    assert s.userClickedPattern == s.gamePattern[..0];
    assert s.gamePattern[0..] == s.gamePattern;
    CorrectClicksCompleteRound(s, 0);
    var done := Run(s, Presses(s.gamePattern));
    RunAppend(s, Presses(s.gamePattern), [AdvanceTimer(draw)]);
    assert Run(done, [AdvanceTimer(draw)]) == Apply(done, AdvanceTimer(draw));
  }

  /**
   * From any state waiting for a start at level 0, a flawless game with n
   * draws reaches level n with exactly the drawn colours as pattern, the game
   * still running, an empty attempt, and the timers all consumed.
   */
  lemma {:induction false} FlawlessGameReachesLevel(s: State, draws: seq<ColourIndex>)
    requires Inv(s) && !s.started && s.gamePattern == []
    requires |draws| >= 1
    ensures Run(s, FlawlessGame(draws)) ==
              s.(started := true, level := |draws|, gamePattern := PatternOf(draws), userClickedPattern := [])
    decreases |draws|
  {
    if |draws| == 1 {
      assert PatternOf(draws) == [ButtonColours[draws[0]]];
      assert Run(s, [StartTrigger(draws[0])]) == Apply(s, StartTrigger(draws[0]));
    } else {
      var earlier := draws[..|draws| - 1];
      var round := Presses(PatternOf(earlier)) + [AdvanceTimer(draws[|draws| - 1])];
      FlawlessGameReachesLevel(s, earlier);
      var s1 := Run(s, FlawlessGame(earlier));
      CompletedRoundAdvances(s1, draws[|draws| - 1]);
      assert FlawlessGame(draws) == FlawlessGame(earlier) + round;
      RunAppend(s, FlawlessGame(earlier), round);
    }
  }

  /** Running a non-empty sequence of events is applying its first event, then running the rest. */
  lemma RunCons(s: State, e: Event, rest: seq<Event>)
    ensures Run(s, [e] + rest) == Run(Apply(s, e), rest)
  {
    assert ([e] + rest)[1..] == rest;
  }

  /**
   * The timer of a completed round is not guarded. Clicking once more before
   * it fires ends the game, leaving an attempt longer than the emptied
   * pattern, with the timer still pending.
   */
  lemma StaleAdvanceEndsGame()
    ensures var s := Run(Initial(), [StartTrigger(0), ButtonPress(Red), ButtonPress(Red)]);
      s == State([], [Red, Red], false, 0, 0, true, 1)
  {
    var s1 := Apply(Initial(), StartTrigger(0));
    assert s1 == State([Red], [], true, 1, 0, true, 0);
    var s2 := Apply(s1, ButtonPress(Red));
    assert s2 == State([Red], [Red], true, 1, 0, true, 1);
    var s3 := Apply(s2, ButtonPress(Red));
    assert Judge([Red, Red], [Red], 1) == Mismatch;
    assert s3 == State([], [Red, Red], false, 0, 0, true, 1);
    RunCons(Initial(), StartTrigger(0), [ButtonPress(Red), ButtonPress(Red)]);
    RunCons(s1, ButtonPress(Red), [ButtonPress(Red)]);
    RunCons(s2, ButtonPress(Red), []);
  }

  /**
   * The stale timer of that game then fires: the level becomes 1 and the
   * pattern gets a colour while no game runs, so the next game starts at
   * level 2 and a wrong first click in it scores 1.
   */
  lemma StaleAdvanceScenario()
    ensures var s := Run(Initial(), [StartTrigger(0), ButtonPress(Red), ButtonPress(Red), AdvanceTimer(1)]);
      !s.started && s.level == 1 && s.gamePattern == [Blue] && s.highScore == 0
    ensures var s := Run(Initial(), [StartTrigger(0), ButtonPress(Red), ButtonPress(Red), AdvanceTimer(1),
                                     StartTrigger(2), ButtonPress(Yellow)]);
      !s.started && s.highScore == 1
  {
    var opening := [StartTrigger(0), ButtonPress(Red), ButtonPress(Red)];
    StaleAdvanceEndsGame();
    var s3 := Run(Initial(), opening);
    var s4 := Apply(s3, AdvanceTimer(1));
    assert s4 == State([Blue], [], false, 1, 0, true, 0);
    var s5 := Apply(s4, StartTrigger(2));
    assert s5 == State([Blue, Green], [], true, 2, 0, true, 0);
    var s6 := Apply(s5, ButtonPress(Yellow));
    assert s6.highScore == 1 && !s6.started;
    RunAppend(Initial(), opening, [AdvanceTimer(1)]);
    RunCons(s3, AdvanceTimer(1), []);
    assert opening + [AdvanceTimer(1)] == [StartTrigger(0), ButtonPress(Red), ButtonPress(Red), AdvanceTimer(1)];
    RunAppend(Initial(), opening, [AdvanceTimer(1), StartTrigger(2), ButtonPress(Yellow)]);
    RunCons(s3, AdvanceTimer(1), [StartTrigger(2), ButtonPress(Yellow)]);
    RunCons(s4, StartTrigger(2), [ButtonPress(Yellow)]);
    RunCons(s5, ButtonPress(Yellow), []);
    assert opening + [AdvanceTimer(1), StartTrigger(2), ButtonPress(Yellow)] ==
      [StartTrigger(0), ButtonPress(Red), ButtonPress(Red), AdvanceTimer(1), StartTrigger(2), ButtonPress(Yellow)];
  }
}
