# Simon Says: the round/sequence state machine

This project models the game engine of a Simon Says memory game for the rabbit r1
device. Each round the game appends one random action (up, down, button or shake)
to a sequence. It replays the whole sequence, and the player must then enter it back
exactly. A wrong input ends the game. A completed round adds the sequence's length
to the score, and a finished game raises the high score when the score beats it.

The engine is the class `SimonSaysGame` of `game.js`. The model has two modules:

- `GameModel` (game_model.dfy) describes the game's fields as a value, `GameState`.
  It gives one function per method that changes them (`StartGame`, `NextRound`,
  `BeginShow`, `EndShow`, `GameOver`, `HandleInput`) and the invariant `Valid`.
  It also defines a trace semantics (`Step`, `Run`) over events that the
  environment delivers, and lemmas about whole traces.
- `SimonSays` (simon_says.dfy) is the class `SimonSaysGame` with the source's
  fields. Its methods update the fields in place and are proved equal to the
  functions of `GameModel`, through `State()`.

How the parts the source leaves to its environment are made explicit:

- Randomness: `NextRound` takes the random index `draw` (0..3) as a parameter.
- Timers: the source schedules continuations with `setTimeout` and `await`. The
  field `pending` records which continuation is scheduled: `nextRound` (after
  `startGame` or a completed round), `showSequence` (after `nextRound`), or the end
  of the replay. The environment fires it by calling `NextRound`, `BeginShow` or
  `EndShow`. These three methods require the matching `pending` value, which is the
  event loop's guarantee.
- Actions are the names `"up"`, `"down"`, `"button"`, `"shake"` (the subset type
  `Action`). `ActionName` maps index i to the name of the i-th entry of
  `Object.values(actions)`. `handleInput` takes an `Action`: its callers in
  `setupControls` (game.js:73-90) deliver only these four names.
- Persisting the high score: the field `saves` logs every value handed to
  `saveHighScore`.

Two facts about game.js that the model keeps as they are:

- `round` is set to 1 in `startGame` (game.js:146) and never incremented, so it
  is not the sequence length. `RoundNeverAdvances` proves that it stays 1.
- `playerSequence` is cleared by `nextRound` (game.js:158).

## Model

| member | source | states |
|---|---|---|
| GameModel.Initial | game.js:5-13 | the constructor's field values: empty sequences, round 1, score and high score 0, no flag set, nothing scheduled, no save requested; this state satisfies the invariant |
| GameModel.ActionName | game.js:16-21 | index 0, 1, 2, 3 names "up", "down", "button", "shake", the order of Object.values(actions), and each name belongs to exactly one index |
| GameModel.Names | game.js:16-21 | the names of a sequence of action indices, position by position, in the order UP, DOWN, BUTTON, SHAKE |
| GameModel.StartGame | game.js:143-155 | empties both sequences, sets round 1, score 0 and isPlaying, and schedules nextRound; the high score and the save log are unchanged; from a valid idle state the result is valid |
| GameModel.NextRound | game.js:157-169 | empties playerSequence; the old sequence is a prefix of the new one, which is one longer and ends with the drawn index; showSequence is scheduled; score, round, high score and save log are unchanged; the invariant is kept and the count of completed rounds is unchanged |
| GameModel.BeginShow | game.js:171-174 | sets isShowingSequence and leaves the sequences, score, round, high score and save log alone; the invariant is kept |
| GameModel.EndShow | game.js:188-192 | clears isShowingSequence and sets isPlayerTurn, leaving the sequences, score, round, high score and save log alone; after a replay, input is accepted and playerSequence is still empty |
| GameModel.GameOver | game.js:231-250 | clears isPlaying and isPlayerTurn and leaves the sequences, score, round, isShowingSequence and the scheduled timer alone; the high score becomes the larger of the high score and the score; one save of that value is logged exactly when the score is strictly greater |
| GameModel.HandleInput | game.js:104-141 | the two guards (game.js:105, 113) are `Accepts`, the expected name at game.js:125-126 is `Expected`; when not playing, only "button" changes anything and it starts a game; input during the replay or outside the player's turn changes nothing; an accepted input is appended; a wrong one ends the game with the score unchanged; a correct one that completes the sequence clears isPlayerTurn, adds the sequence length to the score and schedules nextRound; a correct one short of that leaves score and flags unchanged; the high score and the save log change only through gameOver on a wrong input; while playing, round is unchanged; the invariant is kept |
| GameModel.Step | game.js:104-192 | one input or one timer firing keeps the invariant, never lowers the high score, and leaves round unchanged or 1; the high score changes and a save is logged only on a wrong input that ends a game whose score beats the high score, and then both take that score |
| GameModel.Run | game.js:104-192 | every state reached by any sequence of events from a valid state is valid |
| GameModel.TriangleClosedForm | game.js:138 | the sum 1 + 2 + ... + k equals k(k+1)/2 |
| GameModel.HighScoreNeverDecreases | game.js:239-242 | over any sequence of events the high score never decreases |
| GameModel.RoundNeverAdvances | game.js:143-146 | starting from round 1, round is 1 after any sequence of events |
| GameModel.ScoreAfterRounds | game.js:135-140 | in every reachable state, after k completed rounds the score is k(k+1)/2 |
| GameModel.PlayerInputIsPrefix | game.js:118-140 | during the player's turn, the input so far is a prefix of the sequence's names and strictly shorter than it |
| GameModel.CorrectInputsCompleteRound | game.js:124-140 | entering the rest of the expected names completes the round: the game is still on, nextRound is scheduled, and the score grew by the sequence length |
| GameModel.WrongInputEndsGame | game.js:124-132 | a wrong input ends the game at once with the score unchanged, and then any input other than "button" changes nothing |
| SimonSays.SimonSaysGame.constructor | game.js:5-13 | the fields start as in the initial state, which is valid |
| SimonSays.SimonSaysGame.HandleInput | game.js:104-141 | updates the fields exactly as GameModel.HandleInput and keeps the invariant |
| SimonSays.SimonSaysGame.StartGame | game.js:143-155 | updates the fields exactly as GameModel.StartGame |
| SimonSays.SimonSaysGame.NextRound | game.js:157-169 | when its timer fires, updates the fields exactly as GameModel.NextRound and keeps the invariant |
| SimonSays.SimonSaysGame.BeginShow | game.js:171-174 | when its timer fires, updates the fields exactly as GameModel.BeginShow and keeps the invariant |
| SimonSays.SimonSaysGame.Replay | game.js:175-186 | during the replay, the loop shows one name per entry of the sequence, in order, the name of that entry's action |
| SimonSays.SimonSaysGame.EndShow | game.js:188-192 | at the end of the replay, updates the fields exactly as GameModel.EndShow and keeps the invariant |
| SimonSays.SimonSaysGame.GameOver | game.js:231-250 | updates the fields exactly as GameModel.GameOver |

## Left out

- Rendering (`showAction`, `hideAction`, `showMessage`, `hideMessage`, `updateDisplay`,
  `showScreen`, and the delayed game-over screen in `gameOver`): DOM side effects only.
  `Replay` returns the names the replay shows instead of drawing them.
- Sound (`playTone`, `playErrorSound`): floating-point calls into the Web Audio API.
- `detectShake`: a floating-point threshold on accelerometer data. It classifies input
  before `handleInput` sees it.
- `loadHighScore` and `saveHighScore`: asynchronous storage I/O. The high score starts
  at 0 as the constructor sets it. A save is recorded only as an entry of `saves`.
- `setupControls` and the page's load hook: event wiring from the device SDK and the
  keyboard.
- Durations of the timers and any interleaving of timer callbacks with each other.
  Only one continuation that changes the game's fields is scheduled at a time, and the
  environment fires it in order; the game-over screen timer changes none of them.
  The awaits inside the replay loop are folded into one step between `BeginShow` and
  `EndShow`.
