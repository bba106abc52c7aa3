/** The round/sequence state machine of the Simon Says game, as values.

    Each source method of SimonSaysGame that changes the game's fields is a
    function from the old GameState to the new one.  The timers the source
    schedules (setTimeout, the awaits of showSequence) are recorded in the
    `pending` field; the environment fires them one at a time (Step), and an
    input event is a call of HandleInput.  Valid is the invariant every
    reachable state satisfies. */
module GameModel {

  /** An index into the four actions, in the declaration order of `actions`:
      UP, DOWN, BUTTON, SHAKE. */
  type ActionIndex = i: nat | i < 4

  /** The four action names.  The input handlers deliver only these. */
  type Action = s: string | s == "up" || s == "down" || s == "button" || s == "shake" witness "up"

  /** The index of the entry of Object.values(actions) whose `name` is the given
      one: the lookup by name that showAction performs. */
  function ActionIndexOf(name: Action): ActionIndex
  {
    if name == "up" then 0
    else if name == "down" then 1
    else if name == "button" then 2
    else 3
  }

  /** The `name` of the action at index i of Object.values(actions).  No two
      indices share a name: looking the name up gives i back. */
  function ActionName(i: ActionIndex): (r: Action)
    ensures ActionIndexOf(r) == i
  {
    if i == 0 then "up"
    else if i == 1 then "down"
    else if i == 2 then "button"
    else "shake"
  }

  /** The names of a sequence of action indices, in order: what the replay
      shows and what the player must enter. */
  function Names(q: seq<ActionIndex>): (r: seq<Action>)
    ensures |r| == |q|
    ensures forall k :: 0 <= k < |q| ==> r[k] == ActionName(q[k])
  {
    if q == [] then [] else Names(q[..|q| - 1]) + [ActionName(q[|q| - 1])]
  }

  /** The continuation the game has scheduled with a timer, if any. */
  datatype Timer =
    | NoTimer
    | NextRoundDue  // nextRound, scheduled by startGame or a completed round
    | ShowDue       // showSequence, scheduled by nextRound
    | TurnDue       // the rest of showSequence, after the replay's awaits

  datatype GameState = GameState(
    sequence: seq<ActionIndex>,
    playerSequence: seq<Action>,
    round: int,
    score: int,
    highScore: int,
    isPlaying: bool,
    isShowingSequence: bool,
    isPlayerTurn: bool,
    pending: Timer,
    saves: seq<int>  // every value handed to saveHighScore, oldest first
  )

  /** The fields as the constructor leaves them, before any high score is loaded. */
  function Initial(): (g: GameState)
    ensures g.sequence == [] && g.playerSequence == [] && g.score == 0 && g.highScore == 0
    ensures g.round == 1 && g.saves == []
    ensures !g.isPlaying && !g.isShowingSequence && !g.isPlayerTurn && g.pending == NoTimer
    ensures Valid(g)
  {
    GameState([], [], 1, 0, 0, false, false, false, NoTimer, [])
  }

  /** 1 + 2 + ... + k. */
  function Triangle(k: nat): nat
  {
    if k == 0 then 0 else Triangle(k - 1) + k
  }

  lemma {:induction false} TriangleClosedForm(k: nat)
    ensures 2 * Triangle(k) == k * (k + 1)
  {
    if k > 0 {
      TriangleClosedForm(k - 1);
      assert k * (k + 1) == (k - 1) * k + 2 * k;
    }
  }

  /** Rounds the player has reproduced in full in the current (or last) game:
      the current sequence when its round is complete and the next one is
      scheduled, else all but its last action. */
  function CompletedRounds(g: GameState): nat
  {
    if g.pending == NextRoundDue || g.sequence == [] then |g.sequence| else |g.sequence| - 1
  }

  /** The phase flags agree with the scheduled timer; during the player's turn
      the input so far is a proper prefix of the expected names; the score is
      the sum of the lengths of all completed rounds. */
  ghost predicate Valid(g: GameState)
  {
    && g.score == Triangle(CompletedRounds(g))
    && match g.pending
       case NoTimer =>
         if g.isPlaying then
           && g.isPlayerTurn && !g.isShowingSequence
           && |g.playerSequence| < |g.sequence|
           && g.playerSequence == Names(g.sequence)[..|g.playerSequence|]
         else
           !g.isPlayerTurn && !g.isShowingSequence
       case NextRoundDue =>
         && g.isPlaying && !g.isPlayerTurn && !g.isShowingSequence
         && g.playerSequence == Names(g.sequence)
       case ShowDue =>
         && g.isPlaying && !g.isPlayerTurn && !g.isShowingSequence
         && g.playerSequence == [] && g.sequence != []
       case TurnDue =>
         && g.isPlaying && !g.isPlayerTurn && g.isShowingSequence
         && g.playerSequence == [] && g.sequence != []
  }

  /** handleInput gets past its two guards and records the input. */
  predicate Accepts(g: GameState)
  {
    g.isPlaying && !g.isShowingSequence && g.isPlayerTurn
  }

  /** The name the next input is compared with. */
  function Expected(g: GameState): Action
    requires Valid(g) && Accepts(g)
  {
    ActionName(g.sequence[|g.playerSequence|])
  }

  function StartGame(g: GameState): (r: GameState)
    ensures r.sequence == [] && r.playerSequence == [] && r.round == 1 && r.score == 0
    ensures r.isPlaying && r.pending == NextRoundDue
    ensures r.highScore == g.highScore && r.saves == g.saves
    ensures r.isShowingSequence == g.isShowingSequence && r.isPlayerTurn == g.isPlayerTurn
    ensures Valid(g) && !g.isPlaying ==> Valid(r)
  {
    g.(sequence := [], playerSequence := [], round := 1, score := 0, isPlaying := true,
       pending := NextRoundDue)
  }

  function NextRound(g: GameState, draw: ActionIndex): (r: GameState)
    ensures r.playerSequence == []
    ensures |r.sequence| == |g.sequence| + 1 && r.sequence[..|g.sequence|] == g.sequence
    ensures r.sequence[|g.sequence|] == draw
    ensures r.pending == ShowDue
    ensures r.score == g.score && r.round == g.round && r.highScore == g.highScore && r.saves == g.saves
    ensures Valid(g) && g.pending == NextRoundDue ==> Valid(r) && CompletedRounds(r) == CompletedRounds(g)
  {
    g.(playerSequence := [], sequence := g.sequence + [draw], pending := ShowDue)
  }

  /** The start of showSequence, up to its first await. */
  function BeginShow(g: GameState): (r: GameState)
    ensures r.isShowingSequence && r.pending == TurnDue
    ensures r.sequence == g.sequence && r.playerSequence == g.playerSequence && r.score == g.score
    ensures r.highScore == g.highScore && r.saves == g.saves && r.round == g.round
    ensures Valid(g) && g.pending == ShowDue ==> Valid(r)
  {
    g.(isShowingSequence := true, pending := TurnDue)
  }

  /** The end of showSequence, after the replay. */
  function EndShow(g: GameState): (r: GameState)
    ensures !r.isShowingSequence && r.isPlayerTurn && r.pending == NoTimer
    ensures r.sequence == g.sequence && r.playerSequence == g.playerSequence && r.score == g.score
    ensures r.highScore == g.highScore && r.saves == g.saves && r.round == g.round
    ensures Valid(g) && g.pending == TurnDue ==> Valid(r) && Accepts(r) && r.playerSequence == []
  {
    g.(isShowingSequence := false, isPlayerTurn := true, pending := NoTimer)
  }

  function GameOver(g: GameState): (r: GameState)
    ensures !r.isPlaying && !r.isPlayerTurn
    ensures r.sequence == g.sequence && r.playerSequence == g.playerSequence && r.score == g.score
    ensures r.round == g.round && r.isShowingSequence == g.isShowingSequence && r.pending == g.pending
    ensures r.highScore >= g.highScore && r.highScore >= g.score
    ensures r.highScore == g.highScore || r.highScore == g.score
    ensures r.saves == if g.score > g.highScore then g.saves + [r.highScore] else g.saves
  {
    var ended := g.(isPlaying := false, isPlayerTurn := false);
    if g.score > g.highScore then ended.(highScore := g.score, saves := g.saves + [g.score])
    else ended
  }

  function HandleInput(g: GameState, action: Action): (r: GameState)
    requires Valid(g)
    ensures !g.isPlaying ==> r == if action == "button" then StartGame(g) else g
    ensures g.isPlaying && !Accepts(g) ==> r == g
    ensures Accepts(g) ==> r.playerSequence == g.playerSequence + [action] && r.sequence == g.sequence
    ensures Accepts(g) && action != Expected(g) ==>
      && r.highScore == (if g.score > g.highScore then g.score else g.highScore)
      && r == GameOver(g.(playerSequence := g.playerSequence + [action]))
    ensures !(Accepts(g) && action != Expected(g)) ==> r.highScore == g.highScore && r.saves == g.saves
    ensures g.isPlaying ==> r.round == g.round
    ensures Accepts(g) && action == Expected(g) && |r.playerSequence| == |g.sequence| ==>
      r.isPlaying && !r.isPlayerTurn && r.score == g.score + |g.sequence| && r.pending == NextRoundDue
    ensures Accepts(g) && action == Expected(g) && |r.playerSequence| < |g.sequence| ==>
      Accepts(r) && r.score == g.score && r.pending == g.pending
    ensures Valid(r)
  {
    if !g.isPlaying then
      if action == "button" then StartGame(g) else g
    else if g.isShowingSequence || !g.isPlayerTurn then
      g
    else
      var entered := g.(playerSequence := g.playerSequence + [action]);
      var expectedAction := ActionName(g.sequence[|entered.playerSequence| - 1]);
      if action != expectedAction then
        GameOver(entered)
      else if |entered.playerSequence| == |g.sequence| then
        assert entered.playerSequence == Names(g.sequence);
        entered.(isPlayerTurn := false, score := g.score + |g.sequence|, pending := NextRoundDue)
      else
        assert entered.playerSequence == Names(g.sequence)[..|entered.playerSequence|];
        entered
  }

  /** What the environment delivers: a classified input, or the firing of the
      scheduled timer.  `draw` is what Math.random picks when the step that
      fires is nextRound; the other steps ignore it. */
  datatype Event = Press(action: Action) | TimerFires(draw: ActionIndex)

  /** The event is a wrong input that ends a game whose score beats the high score. */
  predicate EndsGameWithNewHighScore(g: GameState, e: Event)
    requires Valid(g)
  {
    e.Press? && Accepts(g) && e.action != Expected(g) && g.score > g.highScore
  }

  function Step(g: GameState, e: Event): (r: GameState)
    requires Valid(g)
    ensures Valid(r)
    ensures r.highScore >= g.highScore
    ensures r.round == g.round || r.round == 1
    ensures r.saves == g.saves || (EndsGameWithNewHighScore(g, e) && r.saves == g.saves + [g.score])
    ensures r.highScore == g.highScore || (EndsGameWithNewHighScore(g, e) && r.highScore == g.score)
  {
    match e
    case Press(a) => HandleInput(g, a)
    case TimerFires(d) =>
      match g.pending
      case NoTimer => g
      case NextRoundDue => NextRound(g, d)
      case ShowDue => BeginShow(g)
      case TurnDue => EndShow(g)
  }

  /** The state after the events, delivered one at a time in order. */
  function Run(g: GameState, events: seq<Event>): (r: GameState)
    requires Valid(g)
    ensures Valid(r)
    decreases |events|
  {
    if events == [] then g else Run(Step(g, events[0]), events[1..])
  }

  /** The inputs that type the given names, in order. */
  function Presses(names: seq<Action>): seq<Event>
  {
    seq(|names|, k requires 0 <= k < |names| => Press(names[k]))
  }

  /** The high score never decreases, whatever happens. */
  lemma {:induction false} HighScoreNeverDecreases(g: GameState, events: seq<Event>)
    requires Valid(g)
    ensures Run(g, events).highScore >= g.highScore
    decreases |events|
  {
    if events != [] {
      HighScoreNeverDecreases(Step(g, events[0]), events[1..]);
    }
  }

  /** round is set to 1 and never incremented. */
  lemma {:induction false} RoundNeverAdvances(g: GameState, events: seq<Event>)
    requires Valid(g) && g.round == 1
    ensures Run(g, events).round == 1
    decreases |events|
  {
    if events != [] {
      RoundNeverAdvances(Step(g, events[0]), events[1..]);
    }
  }

  /** In every reachable state the score is 1 + 2 + ... + k for the k rounds
      completed so far. */
  lemma ScoreAfterRounds(g: GameState, events: seq<Event>)
    requires Valid(g)
    ensures var r := Run(g, events);
      2 * r.score == CompletedRounds(r) * (CompletedRounds(r) + 1)
  {
    TriangleClosedForm(CompletedRounds(Run(g, events)));
  }

  /** While the player has the turn, what they entered is a prefix of the
      names of the sequence, and strictly shorter. */
  lemma PlayerInputIsPrefix(g: GameState, events: seq<Event>)
    requires Valid(g)
    ensures var r := Run(g, events);
      r.isPlayerTurn ==>
        |r.playerSequence| < |r.sequence| && r.playerSequence == Names(r.sequence)[..|r.playerSequence|]
  {
  }

  /** Entering the rest of the expected names completes the round: the score
      grows by the length of the sequence and nextRound is scheduled. */
  lemma {:induction false} CorrectInputsCompleteRound(g: GameState)
    requires Valid(g) && Accepts(g)
    ensures var r := Run(g, Presses(Names(g.sequence)[|g.playerSequence|..]));
      && r.isPlaying && !r.isPlayerTurn && r.pending == NextRoundDue
      && r.sequence == g.sequence && r.playerSequence == Names(g.sequence)
      && r.score == g.score + |g.sequence|
    decreases |g.sequence| - |g.playerSequence|
  {
    var rest := Names(g.sequence)[|g.playerSequence|..];
    var events := Presses(rest);
    var next := HandleInput(g, Expected(g));
    assert events[0] == Press(Expected(g));
    assert Step(g, events[0]) == next;
    if |next.playerSequence| == |g.sequence| {
      assert events[1..] == [];
    } else {
      assert Names(next.sequence)[|next.playerSequence|..] == rest[1..];
      assert |Presses(rest[1..])| == |events[1..]|;
      assert forall k :: 0 <= k < |events[1..]| ==> Presses(rest[1..])[k] == events[1..][k];
      assert Presses(rest[1..]) == events[1..];
      CorrectInputsCompleteRound(next);
    }
  }

  /** A wrong input ends the game at once, whatever follows in the sequence;
      afterwards only "button" changes anything. */
  lemma WrongInputEndsGame(g: GameState, action: Action, later: Action)
    requires Valid(g) && Accepts(g) && action != Expected(g)
    ensures var r := HandleInput(g, action);
      && !r.isPlaying && r.score == g.score
      && (later != "button" ==> HandleInput(r, later) == r)
  {
  }
}
