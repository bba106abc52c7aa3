/** SimonSaysGame: the game object whose methods update its fields in place.

    Every method is proved against the function of GameModel that specifies
    it, through State(), the value of the fields.  The timer steps nextRound,
    BeginShow and EndShow are called by the environment when the timer the
    game scheduled (recorded in `pending`) fires. */
module SimonSays {
  import opened GameModel

  class SimonSaysGame {
    var sequence: seq<ActionIndex>
    var playerSequence: seq<Action>
    var round: int
    var score: int
    var highScore: int
    var isPlaying: bool
    var isShowingSequence: bool
    var isPlayerTurn: bool
    /** The continuation scheduled with setTimeout or await, if any. */
    var pending: Timer
    /** The values handed to saveHighScore, oldest first. */
    var saves: seq<int>

    function State(): GameState
      reads this
    {
      GameState(sequence, playerSequence, round, score, highScore,
                isPlaying, isShowingSequence, isPlayerTurn, pending, saves)
    }

    ghost predicate Valid()
      reads this
    {
      GameModel.Valid(State())
    }

    constructor ()
      ensures State() == Initial() && Valid()
    {
      sequence := [];
      playerSequence := [];
      round := 1;
      score := 0;
      highScore := 0;
      isPlaying := false;
      isShowingSequence := false;
      isPlayerTurn := false;
      pending := NoTimer;
      saves := [];
    }

    method HandleInput(action: Action)
      requires Valid()
      modifies this
      ensures State() == GameModel.HandleInput(old(State()), action)
      ensures Valid()
    {
      ghost var before := State();
      if !isPlaying {
        if action == "button" {
          StartGame();
        }
        return;
      }
      if isShowingSequence || !isPlayerTurn {
        return;
      }
      assert Accepts(before);
      playerSequence := playerSequence + [action];
      var currentIndex := |playerSequence| - 1;
      var expectedAction := ActionName(sequence[currentIndex]);
      assert expectedAction == Expected(before);
      if action != expectedAction {
        GameOver();
        return;
      }
      if |playerSequence| == |sequence| {
        isPlayerTurn := false;
        score := score + |sequence|;
        pending := NextRoundDue;
      }
    }

    method StartGame()
      modifies this
      ensures State() == GameModel.StartGame(old(State()))
      ensures old(Valid()) && !old(isPlaying) ==> Valid()
    {
      sequence := [];
      playerSequence := [];
      round := 1;
      score := 0;
      isPlaying := true;
      pending := NextRoundDue;
    }

    /** Fired by the timer startGame or a completed round scheduled; `draw` is
        the random index. */
    method NextRound(draw: ActionIndex)
      requires Valid() && pending == NextRoundDue
      modifies this
      ensures State() == GameModel.NextRound(old(State()), draw)
      ensures Valid()
    {
      playerSequence := [];
      sequence := sequence + [draw];
      pending := ShowDue;
    }

    /** showSequence up to its first await. */
    method BeginShow()
      requires Valid() && pending == ShowDue
      modifies this
      ensures State() == GameModel.BeginShow(old(State()))
      ensures Valid()
    {
      isShowingSequence := true;
      pending := TurnDue;
    }

    /** The replay loop of showSequence: the names shown, in order. */
    method Replay() returns (shown: seq<Action>)
      requires Valid() && pending == TurnDue
      ensures shown == Names(sequence)
    {
      shown := [];
      var i := 0;
      while i < |sequence|
        invariant 0 <= i <= |sequence|
        invariant shown == Names(sequence[..i])
      {
        assert sequence[..i + 1][..i] == sequence[..i];
        shown := shown + [ActionName(sequence[i])];
        i := i + 1;
      }
      assert sequence[..i] == sequence;
    }

    /** showSequence after its last await: the player's turn begins. */
    method EndShow()
      requires Valid() && pending == TurnDue
      modifies this
      ensures State() == GameModel.EndShow(old(State()))
      ensures Valid()
    {
      isShowingSequence := false;
      isPlayerTurn := true;
      pending := NoTimer;
    }

    method GameOver()
      modifies this
      ensures State() == GameModel.GameOver(old(State()))
    {
      isPlaying := false;
      isPlayerTurn := false;
      if score > highScore {
        highScore := score;
        saves := saves + [highScore];
      }
    }
  }
}
