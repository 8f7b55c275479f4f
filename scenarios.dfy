/** Whole games played through the model, from the empty board. */
module Scenarios {
  import opened Wrappers
  import opened Squares
  import opened WinEvaluator
  import opened Board
  import opened GameHistory

  /** At the end of history `h`, a click on a free square of an undecided board appends the mover's board. */
  lemma Step(h: seq<seq<Cell>>, i: Index, after: seq<Cell>)
    requires |h| >= 1 && |h[|h| - 1]| == 9
    requires Winner(h[|h| - 1]).None? && h[|h| - 1][i] == Empty
    requires after == h[|h| - 1][i := Mark((|h| - 1) % 2 == 0)]
    ensures ClickAt(GameState(h, |h| - 1, false), i) == GameState(h + [after], |h|, false)
  {
    assert h[..|h|] == h;
  }

  // The boards of a game X wins on the top row: clicks on squares 0, 3, 1, 4, 2.

  /** X _ _ / _ _ _ / _ _ _ */
  const TopRowBoard1: seq<Cell> := [X, Empty, Empty, Empty, Empty, Empty, Empty, Empty, Empty]
  /** X _ _ / O _ _ / _ _ _ */
  const TopRowBoard2: seq<Cell> := [X, Empty, Empty, O, Empty, Empty, Empty, Empty, Empty]
  /** X X _ / O _ _ / _ _ _ */
  const TopRowBoard3: seq<Cell> := [X, X, Empty, O, Empty, Empty, Empty, Empty, Empty]
  /** X X _ / O O _ / _ _ _ */
  const TopRowBoard4: seq<Cell> := [X, X, Empty, O, O, Empty, Empty, Empty, Empty]
  /** X X X / O O _ / _ _ _ */
  const TopRowBoard5: seq<Cell> := [X, X, X, O, O, Empty, Empty, Empty, Empty]

  lemma TopRowMove1()
    ensures ClickAt(GameState([EmptyBoard()], 0, false), 0) == GameState([EmptyBoard(), TopRowBoard1], 1, false)
  {
    Step([EmptyBoard()], 0, TopRowBoard1);
  }

  lemma TopRowMove2()
    ensures ClickAt(GameState([EmptyBoard(), TopRowBoard1], 1, false), 3) == GameState([EmptyBoard(), TopRowBoard1, TopRowBoard2], 2, false)
  {
    Step([EmptyBoard(), TopRowBoard1], 3, TopRowBoard2);
  }

  lemma TopRowMove3()
    ensures ClickAt(GameState([EmptyBoard(), TopRowBoard1, TopRowBoard2], 2, false), 1) == GameState([EmptyBoard(), TopRowBoard1, TopRowBoard2, TopRowBoard3], 3, false)
  {
    Step([EmptyBoard(), TopRowBoard1, TopRowBoard2], 1, TopRowBoard3);
  }

  lemma TopRowMove4()
    ensures ClickAt(GameState([EmptyBoard(), TopRowBoard1, TopRowBoard2, TopRowBoard3], 3, false), 4) == GameState([EmptyBoard(), TopRowBoard1, TopRowBoard2, TopRowBoard3, TopRowBoard4], 4, false)
  {
    Step([EmptyBoard(), TopRowBoard1, TopRowBoard2, TopRowBoard3], 4, TopRowBoard4);
  }

  lemma TopRowMove5()
    ensures ClickAt(GameState([EmptyBoard(), TopRowBoard1, TopRowBoard2, TopRowBoard3, TopRowBoard4], 4, false), 2) == GameState([EmptyBoard(), TopRowBoard1, TopRowBoard2, TopRowBoard3, TopRowBoard4, TopRowBoard5], 5, false)
  {
    Step([EmptyBoard(), TopRowBoard1, TopRowBoard2, TopRowBoard3, TopRowBoard4], 2, TopRowBoard5);
  }

  /** Clicks on squares 0, 3, 1, 4, 2: X completes the top row, and a later click on a free square changes nothing. */
  lemma TopRowWinForX()
    ensures ClickAt(ClickAt(ClickAt(ClickAt(ClickAt(Initial(), 0), 3), 1), 4), 2) == GameState([EmptyBoard(), TopRowBoard1, TopRowBoard2, TopRowBoard3, TopRowBoard4, TopRowBoard5], 5, false)
    ensures TopRowBoard5 == [X, X, X, O, O, Empty, Empty, Empty, Empty]
    ensures Winner(TopRowBoard5) == Some(WinInfo(X, (0, 1, 2)))
    ensures StatusText(BoardStatus(TopRowBoard5, false)) == "Winner: X"
    ensures ClickAt(GameState([EmptyBoard(), TopRowBoard1, TopRowBoard2, TopRowBoard3, TopRowBoard4, TopRowBoard5], 5, false), 5) == GameState([EmptyBoard(), TopRowBoard1, TopRowBoard2, TopRowBoard3, TopRowBoard4, TopRowBoard5], 5, false)
  {
    TopRowMove1();
    TopRowMove2();
    TopRowMove3();
    TopRowMove4();
    TopRowMove5();
  }

  /** A board that wins on the top row and the left column reports the row, which is checked first. */
  lemma RowBeforeColumn()
    ensures Winner([X, X, X, X, O, O, X, O, O]) == Some(WinInfo(X, (0, 1, 2)))
  {
  }

  // The boards of a drawn game: clicks on squares 0, 1, 2, 4, 7, 5, 3, 6, 8. The first click is TopRowMove1.

  /** X O _ / _ _ _ / _ _ _ */
  const DrawBoard2: seq<Cell> := [X, O, Empty, Empty, Empty, Empty, Empty, Empty, Empty]
  /** X O X / _ _ _ / _ _ _ */
  const DrawBoard3: seq<Cell> := [X, O, X, Empty, Empty, Empty, Empty, Empty, Empty]
  /** X O X / _ O _ / _ _ _ */
  const DrawBoard4: seq<Cell> := [X, O, X, Empty, O, Empty, Empty, Empty, Empty]
  /** X O X / _ O _ / _ X _ */
  const DrawBoard5: seq<Cell> := [X, O, X, Empty, O, Empty, Empty, X, Empty]
  /** X O X / _ O O / _ X _ */
  const DrawBoard6: seq<Cell> := [X, O, X, Empty, O, O, Empty, X, Empty]
  /** X O X / X O O / _ X _ */
  const DrawBoard7: seq<Cell> := [X, O, X, X, O, O, Empty, X, Empty]
  /** X O X / X O O / O X _ */
  const DrawBoard8: seq<Cell> := [X, O, X, X, O, O, O, X, Empty]
  /** X O X / X O O / O X X */
  const DrawBoard9: seq<Cell> := [X, O, X, X, O, O, O, X, X]

  lemma DrawMove2()
    ensures ClickAt(GameState([EmptyBoard(), TopRowBoard1], 1, false), 1) == GameState([EmptyBoard(), TopRowBoard1, DrawBoard2], 2, false)
  {
    Step([EmptyBoard(), TopRowBoard1], 1, DrawBoard2);
  }

  lemma DrawMove3()
    ensures ClickAt(GameState([EmptyBoard(), TopRowBoard1, DrawBoard2], 2, false), 2) == GameState([EmptyBoard(), TopRowBoard1, DrawBoard2, DrawBoard3], 3, false)
  {
    Step([EmptyBoard(), TopRowBoard1, DrawBoard2], 2, DrawBoard3);
  }

  lemma DrawMove4()
    ensures ClickAt(GameState([EmptyBoard(), TopRowBoard1, DrawBoard2, DrawBoard3], 3, false), 4) == GameState([EmptyBoard(), TopRowBoard1, DrawBoard2, DrawBoard3, DrawBoard4], 4, false)
  {
    Step([EmptyBoard(), TopRowBoard1, DrawBoard2, DrawBoard3], 4, DrawBoard4);
  }

  lemma DrawMove5()
    ensures ClickAt(GameState([EmptyBoard(), TopRowBoard1, DrawBoard2, DrawBoard3, DrawBoard4], 4, false), 7) == GameState([EmptyBoard(), TopRowBoard1, DrawBoard2, DrawBoard3, DrawBoard4, DrawBoard5], 5, false)
  {
    Step([EmptyBoard(), TopRowBoard1, DrawBoard2, DrawBoard3, DrawBoard4], 7, DrawBoard5);
  }

  lemma DrawMove6()
    ensures ClickAt(GameState([EmptyBoard(), TopRowBoard1, DrawBoard2, DrawBoard3, DrawBoard4, DrawBoard5], 5, false), 5) == GameState([EmptyBoard(), TopRowBoard1, DrawBoard2, DrawBoard3, DrawBoard4, DrawBoard5, DrawBoard6], 6, false)
  {
    Step([EmptyBoard(), TopRowBoard1, DrawBoard2, DrawBoard3, DrawBoard4, DrawBoard5], 5, DrawBoard6);
  }

  lemma DrawMove7()
    ensures ClickAt(GameState([EmptyBoard(), TopRowBoard1, DrawBoard2, DrawBoard3, DrawBoard4, DrawBoard5, DrawBoard6], 6, false), 3) == GameState([EmptyBoard(), TopRowBoard1, DrawBoard2, DrawBoard3, DrawBoard4, DrawBoard5, DrawBoard6, DrawBoard7], 7, false)
  {
    Step([EmptyBoard(), TopRowBoard1, DrawBoard2, DrawBoard3, DrawBoard4, DrawBoard5, DrawBoard6], 3, DrawBoard7);
  }

  lemma DrawMove8()
    ensures ClickAt(GameState([EmptyBoard(), TopRowBoard1, DrawBoard2, DrawBoard3, DrawBoard4, DrawBoard5, DrawBoard6, DrawBoard7], 7, false), 6) == GameState([EmptyBoard(), TopRowBoard1, DrawBoard2, DrawBoard3, DrawBoard4, DrawBoard5, DrawBoard6, DrawBoard7, DrawBoard8], 8, false)
  {
    Step([EmptyBoard(), TopRowBoard1, DrawBoard2, DrawBoard3, DrawBoard4, DrawBoard5, DrawBoard6, DrawBoard7], 6, DrawBoard8);
  }

  lemma DrawMove9()
    ensures ClickAt(GameState([EmptyBoard(), TopRowBoard1, DrawBoard2, DrawBoard3, DrawBoard4, DrawBoard5, DrawBoard6, DrawBoard7, DrawBoard8], 8, false), 8) == GameState([EmptyBoard(), TopRowBoard1, DrawBoard2, DrawBoard3, DrawBoard4, DrawBoard5, DrawBoard6, DrawBoard7, DrawBoard8, DrawBoard9], 9, false)
  {
    Step([EmptyBoard(), TopRowBoard1, DrawBoard2, DrawBoard3, DrawBoard4, DrawBoard5, DrawBoard6, DrawBoard7, DrawBoard8], 8, DrawBoard9);
  }

  /** The first four clicks of the drawn game, on squares 0, 1, 2 and 4. */
  lemma DrawGameOpening()
    ensures ClickAt(ClickAt(ClickAt(ClickAt(Initial(), 0), 1), 2), 4) == GameState([EmptyBoard(), TopRowBoard1, DrawBoard2, DrawBoard3, DrawBoard4], 4, false)
  {
    TopRowMove1();
    DrawMove2();
    DrawMove3();
    DrawMove4();
  }

  /** From the position after that opening, clicks on 7, 5, 3, 6, 8 fill the board with no three in a row. */
  lemma DrawGame()
    ensures ClickAt(ClickAt(ClickAt(ClickAt(ClickAt(GameState([EmptyBoard(), TopRowBoard1, DrawBoard2, DrawBoard3, DrawBoard4], 4, false), 7), 5), 3), 6), 8)
         == GameState([EmptyBoard(), TopRowBoard1, DrawBoard2, DrawBoard3, DrawBoard4, DrawBoard5, DrawBoard6, DrawBoard7, DrawBoard8, DrawBoard9], 9, false)
    ensures DrawBoard9 == [X, O, X, X, O, O, O, X, X]
  {
    DrawMove5();
    DrawMove6();
    DrawMove7();
    DrawMove8();
    DrawMove9();
  }

  /** The filled board of that game has no winning triple, so its status is a draw. */
  lemma DrawStatus()
    ensures !HasWinningLine(DrawBoard9)
    ensures StatusText(BoardStatus(DrawBoard9, false)) == "It's a draw!"
  {
    assert Winner(DrawBoard9) == None;
  }

  /** The starting position, which a reset restores, asks X to move. */
  lemma InitialStatus()
    ensures StatusText(BoardStatus(CurrentSquares(Initial()), XIsNext(Initial()))) == "Next player: X"
  {
  }
}
