# Simon memory game: verified model of the game state

This project models the state machine behind a browser Simon game. The game
shows a pattern of coloured buttons that grows by one colour each round, and
the player must click the pattern back. The state is held in the global
variables of `game.js`: `gamePattern`, `userClickedPattern`, `started`,
`level`, `highScore` and `effectsEnabled`. The operations that change it are
`nextSequence`, `checkAnswer`, `gameOver`, `startOver`, `startGame`, the
colour buttons' click handler, `toggleEffects` and the gate at the head of
`playSound`.

The project has four modules:

- `Colours` (colours.dfy) defines the four buttons in the order a random draw
  indexes them (`ButtonColours`), and the index type `ColourIndex`, the values
  `Math.floor(Math.random() * 4)` can take.
- `GameState` (game_state.dfy) holds the globals as one value, `State`. It has
  one transition function per operation. `Inv` is the invariant of every
  reachable state. `Event`, `Apply` and `Run` describe any sequence of starts,
  clicks, timer firings and effect toggles.
- `GameProperties` (game_properties.dfy) holds the lemmas about single
  operations and about whole runs.
- `SimonGame` (simon.dfy) holds the class `Simon`. Its fields are the globals,
  and it updates them in place as `game.js` does. Each method is proved to move
  the fields exactly as the transition function of the same name moves a
  `State`. The methods call each other as the source functions do: the click
  handler calls `PlaySound` and `CheckAnswer`, `CheckAnswer` calls `GameOver`,
  `GameOver` calls `PlaySound` and `StartOver`, `StartGame` calls
  `NextSequence`, and `NextSequence` calls `PlaySound`. `PlaySound` only
  decides whether the sound would play.

The random draw is a `ColourIndex` argument chosen by the caller.

`setTimeout(nextSequence, 1000)` becomes the counter `pendingAdvances`. A
completed round adds one to it. `FirePendingAdvance` takes one away and runs
`nextSequence`. As in `game.js`, nothing checks whether the game that scheduled
the timer is still running.

- A click during that one-second delay falls outside the pattern. `gamePattern[i]`
  is `undefined`, which is modelled by `ElementAt`, so the click is a mismatch
  and the game ends.
- The stale timer then still fires. It sets `level` to 1 and gives the pattern
  one colour while no game is running.
- The next `startGame` therefore begins at level 2.
- `StaleAdvanceEndsGame` and `StaleAdvanceScenario` follow this path event by
  event. It ends with a high score of 1 for a game whose first click was wrong.

The code differs from what one might expect of such a game in three ways. The
model follows the code in each.

- The attempt is not always at most as long as the pattern. `startOver` empties
  `gamePattern` but not `userClickedPattern`, so after a game over the attempt
  can be longer than the now-empty pattern. `Inv` therefore asks for the prefix
  property only while `started` is true. The next `nextSequence` clears the
  attempt.
- The level does not stay at its final value once the game is over. `gameOver`
  calls `startOver` straight away, which sets `level` to 0.
- `startGame` does not clear the pattern or the level itself. It relies on
  `startOver` having done so. A stale timer can add a colour between the two,
  as shown above.

## Model

| member | source | states |
|---|---|---|
| `Colours.ColourName` | game.js:2 | a button's id is a non-empty name, never the `"wrong"` sound's name |
| `Colours.ColourNameInjective` | game.js:2 | the four button ids are distinct, so comparing ids with `===` compares buttons |
| `Colours.EveryColourDrawable` | game.js:34-35 | each of the four colours is drawn by exactly one random index 0..3 |
| `GameState.ElementAt` | game.js:43 | reading a pattern at index i yields a colour exactly when i is inside the array, and then the element at i; `undefined` otherwise |
| `GameState.Initial` | game.js:2-8 | the state on page load satisfies the invariant, no game is running, the pattern is empty, the attempt is empty, the level and the high score are 0, effects are on and no timer is pending |
| `GameState.NextSequence` | game.js:29-40 | appends exactly one colour, the one drawn by the random index, keeps the old pattern as a prefix, raises the level by 1, empties the attempt, changes nothing else and keeps the invariant |
| `GameState.StartOver` | game.js:124-139 | level 0, empty pattern, no game running; attempt, high score, effects setting and pending timers untouched |
| `GameState.GameOver` | game.js:106-122 | the new high score is the larger of the old one and `level - 1`, so it never decreases and is at least the final score; then the game is reset as by startOver |
| `GameState.Judge` | game.js:42-51 | for a click at an index inside the attempt: a mismatch exactly when that index is past the pattern's end or the colours there differ; a round is complete only when the attempt is as long as the pattern |
| `GameState.CheckAnswer` | game.js:42-51 | schedules one advance exactly when the round is complete, runs gameOver exactly on a mismatch, and otherwise changes nothing |
| `GameState.ButtonClick` | game.js:192-201 | a click before a start leaves the state unchanged; in a running game the colour is appended to the attempt and judged at its own index: a matching click changes nothing else except that it schedules one advance when it completes the attempt; a wrong click, or one past the pattern's end, ends the game with the high score set to the larger of itself and `level - 1`, level 0, an empty pattern and no game running |
| `GameState.StartGame` | game.js:175-185 | on a running game nothing changes; otherwise the game is marked started after exactly one nextSequence (one drawn colour appended, level + 1, empty attempt); keeps the invariant |
| `GameState.FirePendingAdvance` | game.js:46 | a scheduled nextSequence consumes one pending timer and extends the pattern and level whether or not a game is running; keeps the invariant |
| `GameState.ToggleEffects` | game.js:161-172 | flips the effects setting and changes nothing else |
| `GameState.PlaySoundProceeds` | game.js:153-154 | the `"wrong"` sound always proceeds; any other sound proceeds exactly when effects are on |
| `GameProperties.StepPreservesInv` | game.js:3-6 | every event keeps the invariant: level equals pattern length, high score not negative, a running game's attempt is a prefix of its non-empty pattern |
| `GameProperties.RunPreservesInv` | game.js:3-6 | any sequence of events keeps the invariant |
| `GameProperties.LevelEqualsPatternLength` | game.js:31-36 | in every state reachable from page load, stale timers included, level equals the pattern's length and the high score is not negative |
| `GameProperties.ClickOutcome` | game.js:192-201 | after a click in a running game exactly one holds: the attempt is a prefix of the pattern and the game runs, or the game was reset (not started, empty pattern, level 0) |
| `GameProperties.ClickSchedulesAdvanceIff` | game.js:42-47 | a click schedules the next round exactly when it matches the pattern at its own index and makes the attempt as long as the pattern |
| `GameProperties.ClickBeyondPatternEndsGame` | game.js:43-49 | a click at an index beyond the pattern's end counts as a mismatch and resets the game |
| `GameProperties.JudgeSeesOnlyNewestClick` | game.js:43 | the verdict on a click depends only on the newest click and the attempt's length, not on earlier entries |
| `GameProperties.StartGameIdempotent` | game.js:180-184 | starting twice without a game over in between is the same as starting once |
| `GameProperties.StepKeepsHighScore` | game.js:110 | no event lowers the high score |
| `GameProperties.RunKeepsHighScore` | game.js:110 | the high score never decreases over any sequence of events |
| `GameProperties.ToggleTwiceRestores` | game.js:162 | toggling effects twice restores the original state |
| `GameProperties.SoundGate` | game.js:154 | the game-over sound plays in both settings; a button's sound plays exactly when effects are on |
| `GameProperties.CorrectClicksCompleteRound` | game.js:42-47 | clicking the rest of the pattern correctly completes the round: the attempt is the whole pattern, exactly one advance is scheduled, nothing else changes |
| `GameProperties.CompletedRoundAdvances` | game.js:29-47 | in a running game with an empty attempt, clicking the whole pattern and letting its timer fire appends the drawn colour, raises the level by 1 and leaves the attempt empty |
| `GameProperties.FlawlessGameReachesLevel` | game.js:29-47 | from a state waiting at level 0, a start followed by n - 1 completed rounds and their timers reaches level n, with exactly the n drawn colours as pattern, the game running and an empty attempt |
| `GameProperties.StaleAdvanceEndsGame` | game.js:42-50 | a click during the advance delay ends the game while the timer stays pending, leaving an attempt of two clicks beside an empty pattern |
| `GameProperties.StaleAdvanceScenario` | game.js:46 | the stale timer of the ended game then sets level 1 and a one-colour pattern with no game running; the next game starts at level 2 and a wrong first click scores 1 |
| `SimonGame.Simon.constructor` | game.js:2-8 | the fields start as the initial state, which satisfies the invariant |
| `SimonGame.Simon.NextSequence` | game.js:29-40 | updates the fields exactly as `GameState.NextSequence`, keeping the invariant |
| `SimonGame.Simon.CheckAnswer` | game.js:42-51 | updates the fields exactly as `GameState.CheckAnswer` |
| `SimonGame.Simon.GameOver` | game.js:106-122 | updates the fields exactly as `GameState.GameOver`, keeping the invariant |
| `SimonGame.Simon.StartOver` | game.js:124-127 | updates the fields exactly as `GameState.StartOver`, keeping the invariant |
| `SimonGame.Simon.StartGame` | game.js:175-185 | updates the fields exactly as `GameState.StartGame` and keeps the invariant |
| `SimonGame.Simon.ButtonClick` | game.js:192-201 | updates the fields exactly as `GameState.ButtonClick` and keeps the invariant |
| `SimonGame.Simon.FirePendingAdvance` | game.js:46 | updates the fields exactly as `GameState.FirePendingAdvance` and keeps the invariant |
| `SimonGame.Simon.ToggleEffects` | game.js:161-162 | updates the fields exactly as `GameState.ToggleEffects` |
| `SimonGame.Simon.PlaySound` | game.js:153-154 | proceeds exactly as `GameState.PlaySoundProceeds` says for the current effects setting |

## Left out

- DOM work is not modelled: `initUI`, `animateButton`, `animatePress`, `updateTitle`, the restart prompt in `startOver` and its removal in `startGame`. None of it reads or writes game state other than `effectsEnabled`, which it only reads.
- `celebrateSuccess`, `createConfetti` and `fadeIn` are not modelled. They are visual effects on floating-point positions and opacity, driven by their own timers.
- Audio playback and volume (game.js:156-158) are foreign browser calls. Only the gate at game.js:154 is modelled.
- `Math.random` is replaced by a `ColourIndex` that the caller supplies.
- Timers are reduced to the count `pendingAdvances`. Real delays and the order of timers are not modelled. All pending advances do the same thing, so their order does not matter. An `AdvanceTimer` event when nothing is pending leaves the state unchanged in `Apply`, because no such timer exists to fire.
- Event listeners are not modelled as such. The title click, the body keypress (game.js:204-205) and the restart prompt's click (game.js:133) all call `startGame`; all are the `StartTrigger` event.
- The page's HTML is not part of this model. A button's `this.id` (game.js:195) is taken to be one of the four names in `buttonColours`, so a click carries a `Colour`.
- JavaScript numbers are modelled as unbounded integers. `level` and `highScore` never come near the precision limit of a double.
