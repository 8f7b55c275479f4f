/**
 * The `Game` component's state machine, written as a reducer: the state is
 * the history of boards, the pointer to the displayed board and whether the
 * move list is shown; playing, jumping, resetting and toggling are the
 * transitions.
 */
module GameHistory {
  import opened Wrappers
  import opened Squares
  import opened WinEvaluator
  import opened Board

  datatype GameState = GameState(history: seq<seq<Cell>>, currentMove: nat, showSteps: bool)

  /** The pointer designates a board of the history. */
  predicate ValidState(st: GameState)
  {
    st.currentMove < |st.history|
  }

  /** X moves on even pointers, O on odd ones. */
  predicate XIsNext(st: GameState)
  {
    st.currentMove % 2 == 0
  }

  /** The displayed board. */
  function CurrentSquares(st: GameState): seq<Cell>
    requires ValidState(st)
  {
    st.history[st.currentMove]
  }

  /** The state a game starts in, and the one `handleReset` restores. */
  function Initial(): GameState
  {
    GameState([EmptyBoard()], 0, false)
  }

  /**
   * `handlePlay`: keep the boards up to the displayed one, append the new
   * board and display it.
   */
  function Play(st: GameState, nextSquares: seq<Cell>): (r: GameState)
    requires ValidState(st)
    ensures ValidState(r)
    ensures |r.history| == st.currentMove + 2 && r.currentMove == |r.history| - 1
    ensures forall k :: 0 <= k <= st.currentMove ==> r.history[k] == st.history[k]
    ensures CurrentSquares(r) == nextSquares
    ensures r.showSteps == st.showSteps
    ensures XIsNext(r) <==> !XIsNext(st)
  {
    var nextHistory := st.history[..st.currentMove + 1] + [nextSquares];
    st.(history := nextHistory, currentMove := |nextHistory| - 1)
  }

  /** `jumpTo`: display another recorded board; the history is not touched. */
  function Jump(st: GameState, nextMove: nat): (r: GameState)
    requires ValidState(st) && nextMove < |st.history|
    ensures ValidState(r)
    ensures r.currentMove == nextMove
    ensures r.history == st.history && r.showSteps == st.showSteps
    ensures CurrentSquares(r) == st.history[nextMove]
  {
    st.(currentMove := nextMove)
  }

  /** The show/hide button: flips only the visibility of the move list. */
  function ToggleSteps(st: GameState): (r: GameState)
    ensures r.showSteps != st.showSteps
    ensures r.history == st.history && r.currentMove == st.currentMove
  {
    st.(showSteps := !st.showSteps)
  }

  /** A click on square `i` of the displayed board, passed through `handleClick` to `handlePlay`. */
  function ClickAt(st: GameState, i: Index): (r: GameState)
    requires ValidState(st) && |CurrentSquares(st)| == 9
    ensures ValidState(r)
    ensures HasWinningLine(CurrentSquares(st)) || CurrentSquares(st)[i] != Empty ==> r == st
    ensures !HasWinningLine(CurrentSquares(st)) && CurrentSquares(st)[i] == Empty ==>
              r == Play(st, CurrentSquares(st)[i := Mark(XIsNext(st))])
  {
    match ClickResult(CurrentSquares(st), XIsNext(st), i)
    case None => st
    case Some(nextSquares) => Play(st, nextSquares)
  }

  /** `after` is `before` with the mover's mark placed on an empty square of an undecided board. */
  predicate IsMove(before: seq<Cell>, after: seq<Cell>, xIsNext: bool)
  {
    && |before| == 9
    && !HasWinningLine(before)
    && exists i: Index :: before[i] == Empty && after == before[i := Mark(xIsNext)]
  }

  /**
   * A history the game can build through clicks: it starts from the empty
   * board and each board follows from the one before by a legal move of the
   * player whose turn it was.
   */
  predicate Reachable(h: seq<seq<Cell>>)
  {
    && |h| >= 1
    && h[0] == EmptyBoard()
    && forall k :: 0 <= k < |h| - 1 ==> IsMove(h[k], h[k + 1], k % 2 == 0)
  }

  predicate ReachableState(st: GameState)
  {
    ValidState(st) && Reachable(st.history)
  }

  /** Every board of a reachable history has nine squares. */
  lemma ReachableBoardsHaveNineSquares(h: seq<seq<Cell>>, k: nat)
    requires Reachable(h) && k < |h|
    ensures |h[k]| == 9
  {
    if k > 0 {
      assert IsMove(h[k - 1], h[k], (k - 1) % 2 == 0);
    }
  }

  /**
   * Turns alternate: board number `k` of a reachable history holds
   * (k + 1) / 2 crosses, k / 2 noughts and 9 - k empty squares.
   */
  lemma {:induction false} ReachableMarkCounts(h: seq<seq<Cell>>, k: nat)
    requires Reachable(h) && k < |h|
    ensures Count(h[k], X) == (k + 1) / 2
    ensures Count(h[k], O) == k / 2
    ensures Count(h[k], Empty) == 9 - k
  {
    if k == 0 {
      CountUniform(h[0], Empty, X);
      CountUniform(h[0], Empty, O);
    } else {
      ReachableMarkCounts(h, k - 1);
      assert IsMove(h[k - 1], h[k], (k - 1) % 2 == 0);
      var i: Index :| h[k - 1][i] == Empty && h[k] == h[k - 1][i := Mark((k - 1) % 2 == 0)];
      if (k - 1) % 2 == 0 {
        CountPlace(h[k - 1], i, X, O);
      } else {
        CountPlace(h[k - 1], i, O, X);
      }
    }
  }

  /** A reachable history never holds more than the ten boards of a full game. */
  lemma ReachableHistoryIsShort(h: seq<seq<Cell>>)
    requires Reachable(h)
    ensures |h| <= 10
  {
    ReachableMarkCounts(h, |h| - 1);
  }

  /** In a reachable state X is to move exactly when both players have placed as many marks. */
  lemma XIsNextIffMarksBalanced(st: GameState)
    requires ReachableState(st)
    ensures XIsNext(st) <==> Count(CurrentSquares(st), X) == Count(CurrentSquares(st), O)
  {
    ReachableMarkCounts(st.history, st.currentMove);
  }

  lemma InitialIsReachable()
    ensures ReachableState(Initial())
    ensures XIsNext(Initial()) && CurrentSquares(Initial()) == EmptyBoard()
  {
  }

  /** Clicks keep the history reachable. */
  lemma ClickPreservesReachable(st: GameState, i: Index)
    requires ReachableState(st)
    ensures |CurrentSquares(st)| == 9
    ensures ReachableState(ClickAt(st, i))
  {
    ReachableBoardsHaveNineSquares(st.history, st.currentMove);
    var cur := CurrentSquares(st);
    var played := ClickResult(cur, XIsNext(st), i);
    if played.Some? {
      var r := Play(st, played.value);
      var p := st.currentMove;
      assert played.value == cur[i := Mark(XIsNext(st))];
      assert IsMove(r.history[p], r.history[p + 1], p % 2 == 0);
      forall k | 0 <= k < |r.history| - 1
        ensures IsMove(r.history[k], r.history[k + 1], k % 2 == 0)
      {
        if k < p {
          assert r.history[k] == st.history[k] && r.history[k + 1] == st.history[k + 1];
        }
      }
    }
  }

  lemma JumpPreservesReachable(st: GameState, nextMove: nat)
    requires ReachableState(st) && nextMove < |st.history|
    ensures ReachableState(Jump(st, nextMove))
  {
  }

  /** Jumping twice to the same move displays what jumping once does. */
  lemma JumpIdempotent(st: GameState, nextMove: nat)
    requires ValidState(st) && nextMove < |st.history|
    ensures Jump(Jump(st, nextMove), nextMove) == Jump(st, nextMove)
  {
  }

  /**
   * Branch and overwrite: playing, jumping back to where the play started and
   * playing again leaves one board after that point, the new one; the
   * abandoned board is gone.
   */
  lemma BranchOverwrites(st: GameState, first: seq<Cell>, second: seq<Cell>)
    requires ValidState(st)
    ensures var p := st.currentMove;
            var again := Play(Jump(Play(st, first), p), second);
            again.history == st.history[..p + 1] + [second] && again.currentMove == p + 1
  {
  }
}
