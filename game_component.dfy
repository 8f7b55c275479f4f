/**
 * The `Game` component's state as an object: the three pieces of component
 * state are fields, and each event handler updates them in one step.
 */
module GameComponent {
  import opened Wrappers
  import opened Squares
  import opened Board
  import opened GameHistory

  class Game {
    var history: seq<seq<Cell>>
    var currentMove: nat
    var showSteps: bool

    /** The fields read as a state of the reducer. */
    function State(): GameState
      reads this
    {
      GameState(history, currentMove, showSteps)
    }

    ghost predicate Valid()
      reads this
    {
      ValidState(State())
    }

    /** A fresh game: one empty board, X to move, move list hidden. */
    constructor ()
      ensures State() == Initial() && Valid()
    {
      history := [EmptyBoard()];
      currentMove := 0;
      showSteps := false;
    }

    method HandlePlay(nextSquares: seq<Cell>)
      requires Valid()
      modifies this
      ensures Valid()
      ensures State() == Play(old(State()), nextSquares)
    {
      var nextHistory := history[..currentMove + 1] + [nextSquares];
      history := nextHistory;
      currentMove := |nextHistory| - 1;
    }

    /** Only moves offered by the move list, that is indices of the history, are jumped to. */
    method JumpTo(nextMove: nat)
      requires Valid() && nextMove < |history|
      modifies this
      ensures Valid()
      ensures State() == Jump(old(State()), nextMove)
    {
      currentMove := nextMove;
    }

    method HandleReset()
      modifies this
      ensures Valid()
      ensures State() == Initial()
    {
      history := [EmptyBoard()];
      currentMove := 0;
      showSteps := false;
    }

    method ToggleShowSteps()
      requires Valid()
      modifies this
      ensures Valid()
      ensures State() == ToggleSteps(old(State()))
    {
      showSteps := !showSteps;
    }

    /**
     * A click on square `i` of the displayed board: the board's `handleClick`
     * with `handlePlay` as its `onPlay`.
     */
    method Click(i: Index)
      requires Valid() && |history[currentMove]| == 9
      modifies this
      ensures Valid()
      ensures State() == ClickAt(old(State()), i)
    {
      var xIsNext := currentMove % 2 == 0;
      var played := HandleClick(history[currentMove], xIsNext, i);
      if played.Some? {
        HandlePlay(played.value);
      }
    }
  }
}
