/**
 * The `Board` component's logic: the status line it derives from the board
 * and the turn, and `handleClick`, which either ignores a click or hands the
 * next board to the game.
 */
module Board {
  import opened Wrappers
  import opened Squares
  import opened WinEvaluator

  /** The three kinds of status line, in the order they take precedence. */
  datatype Status = Won(winner: Cell) | Draw | NextPlayer(mark: Cell)

  /**
   * The status of a board: a winner first, then a draw when no square is
   * empty, and otherwise the player to move.
   */
  function BoardStatus(squares: seq<Cell>, xIsNext: bool): (s: Status)
    requires |squares| == 9
    ensures s.Won? <==> HasWinningLine(squares)
    ensures s.Won? ==> s.winner != Empty && exists k :: 0 <= k < |Lines| && FirstWinningLine(squares, k) && s.winner == squares[Lines[k].0]
    ensures s.Draw? <==> !HasWinningLine(squares) && forall j :: 0 <= j < 9 ==> squares[j] != Empty
    ensures s.NextPlayer? <==> !HasWinningLine(squares) && exists j :: 0 <= j < 9 && squares[j] == Empty
    ensures s.NextPlayer? ==> s.mark == Mark(xIsNext)
  {
    var winnerInfo := Winner(squares);
    if winnerInfo.Some? then Won(winnerInfo.value.winner)
    else if Empty !in squares then Draw
    else NextPlayer(Mark(xIsNext))
  }

  function MarkText(c: Cell): string
  {
    match c
    case X => "X"
    case O => "O"
    case Empty => ""
  }

  /**
   * The status line as the component displays it. The kind of status can be
   * read back from the text: a winner line starts with "Winner: ", a turn
   * line with "Next player: ", and the draw line is "It's a draw!". A winner
   * or turn line is its prefix followed by exactly the mark's letter.
   */
  function StatusText(s: Status): (line: string)
    ensures s.Won? <==> |line| >= 8 && line[..8] == "Winner: "
    ensures s.NextPlayer? <==> |line| >= 13 && line[..13] == "Next player: "
    ensures s.Draw? <==> line == "It's a draw!"
    ensures WellFormed(s) && !s.Draw? ==> line[|line| - 1] == (if s.Won? then MarkText(s.winner) else MarkText(s.mark))[0]
    ensures WellFormed(s) && s.Won? ==> |line| == 9
    ensures WellFormed(s) && s.NextPlayer? ==> |line| == 14
  {
    match s
    case Won(w) =>
      var won := "Winner: " + MarkText(w);
      assert won[..8] == "Winner: ";
      won
    case Draw =>
      var draw := "It's a draw!";
      assert draw[..8][0] != "Winner: "[0];
      draw
    case NextPlayer(m) =>
      var next := "Next player: " + MarkText(m);
      assert next[..8][0] != "Winner: "[0];
      next
  }

  /** A status whose mark is a player's mark; `BoardStatus` only produces these. */
  predicate WellFormed(s: Status)
  {
    match s
    case Won(w) => w != Empty
    case Draw => true
    case NextPlayer(m) => m != Empty
  }

  /** Distinct statuses are displayed as distinct lines. */
  lemma StatusTextInjective(s: Status, t: Status)
    requires WellFormed(s) && WellFormed(t)
    ensures StatusText(s) == StatusText(t) ==> s == t
  {
    if StatusText(s) == StatusText(t) {
      var line := StatusText(s);
      assert |line| == 9 <==> s.Won?;
      assert |line| == 12 <==> s.Draw?;
      assert |line| == 14 <==> s.NextPlayer?;
      assert |line| == 9 <==> t.Won?;
      assert |line| == 14 <==> t.NextPlayer?;
      if s.Won? {
        assert line[8] == MarkText(s.winner)[0] == MarkText(t.winner)[0];
      } else if s.NextPlayer? {
        assert line[13] == MarkText(s.mark)[0] == MarkText(t.mark)[0];
      }
    }
  }

  /**
   * What `handleClick(i)` hands to `onPlay`: nothing when the board is won or
   * square `i` is taken, otherwise the board with the mover's mark at `i`.
   */
  function ClickResult(squares: seq<Cell>, xIsNext: bool, i: Index): (r: Option<seq<Cell>>)
    requires |squares| == 9
    ensures r.None? <==> HasWinningLine(squares) || squares[i] != Empty
    ensures r.Some? ==> |r.value| == 9 && r.value[i] == Mark(xIsNext)
    ensures r.Some? ==> forall j :: 0 <= j < 9 && j != i ==> r.value[j] == squares[j]
  {
    if Winner(squares).Some? || squares[i] != Empty then None
    else Some(squares[i := Mark(xIsNext)])
  }

  /** `handleClick`: copy the board, set one square of the copy, and pass the copy on. */
  method HandleClick(squares: seq<Cell>, xIsNext: bool, i: Index) returns (played: Option<seq<Cell>>)
    requires |squares| == 9
    ensures played == ClickResult(squares, xIsNext, i)
  {
    var winnerInfo := CalculateWinner(squares);
    if winnerInfo.Some? || squares[i] != Empty {
      return None;
    }
    var nextSquares := new Cell[|squares|](j requires 0 <= j < |squares| => squares[j]);
    nextSquares[i] := Mark(xIsNext);
    assert nextSquares[..] == squares[i := Mark(xIsNext)];
    return Some(nextSquares[..]);
  }
}
