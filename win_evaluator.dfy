/**
 * The win check `calculateWinner`: scan the eight winning triples in a fixed
 * order and report the first one whose three squares hold the same mark.
 */
module WinEvaluator {
  import opened Wrappers
  import opened Squares

  type Line = (Index, Index, Index)

  /** The winning triples in the order they are checked: rows top to bottom, columns left to right, then the two diagonals. */
  const Lines: seq<Line> := [(0, 1, 2), (3, 4, 5), (6, 7, 8), (0, 3, 6), (1, 4, 7), (2, 5, 8), (0, 4, 8), (2, 4, 6)]

  /** What the game reports for a won board: the winning mark and its triple. */
  datatype WinInfo = WinInfo(winner: Cell, line: Line)

  /** Triple number `k` holds three equal marks. */
  predicate LineWins(squares: seq<Cell>, k: nat)
    requires |squares| == 9 && k < |Lines|
  {
    var (a, b, c) := Lines[k];
    squares[a] != Empty && squares[a] == squares[b] && squares[a] == squares[c]
  }

  /** Some triple of the board holds three equal marks. */
  predicate HasWinningLine(squares: seq<Cell>)
    requires |squares| == 9
  {
    exists k :: 0 <= k < |Lines| && LineWins(squares, k)
  }

  /** Triple number `k` wins and no triple checked before it does. */
  predicate FirstWinningLine(squares: seq<Cell>, k: nat)
    requires |squares| == 9 && k < |Lines|
  {
    LineWins(squares, k) && forall j :: 0 <= j < k ==> !LineWins(squares, j)
  }

  /** The report for triple number `k`. */
  function InfoAt(squares: seq<Cell>, k: nat): WinInfo
    requires |squares| == 9 && k < |Lines|
  {
    WinInfo(squares[Lines[k].0], Lines[k])
  }

  /** The outcome of the scan started at triple number `k`. */
  function WinnerFrom(squares: seq<Cell>, k: nat): (r: Option<WinInfo>)
    requires |squares| == 9 && k <= |Lines|
    ensures r.Some? ==> exists j :: k <= j < |Lines| && LineWins(squares, j) && r.value == InfoAt(squares, j)
                                      && forall i :: k <= i < j ==> !LineWins(squares, i)
    ensures r.None? <==> forall j :: k <= j < |Lines| ==> !LineWins(squares, j)
    decreases |Lines| - k
  {
    if k == |Lines| then None
    else if LineWins(squares, k) then Some(InfoAt(squares, k))
    else WinnerFrom(squares, k + 1)
  }

  /**
   * The specification of the win check: the first winning triple in the fixed
   * order, reported with the mark its three squares share, or none.
   */
  function Winner(squares: seq<Cell>): (r: Option<WinInfo>)
    requires |squares| == 9
    ensures r.Some? ==> r.value.line in Lines && r.value.winner != Empty
    ensures r.Some? ==> var (a, b, c) := r.value.line;
                          squares[a] == r.value.winner && squares[b] == r.value.winner && squares[c] == r.value.winner
    ensures r.Some? ==> exists k :: 0 <= k < |Lines| && FirstWinningLine(squares, k) && r.value == InfoAt(squares, k)
    ensures r.None? <==> !HasWinningLine(squares)
  {
    WinnerFrom(squares, 0)
  }

  /** The first winning triple in the fixed order is the one reported, whatever other triples also win. */
  lemma WinnerIsFirstWinningLine(squares: seq<Cell>, k: nat)
    requires |squares| == 9 && k < |Lines|
    requires FirstWinningLine(squares, k)
    ensures Winner(squares) == Some(InfoAt(squares, k))
  {
  }

  /** `calculateWinner`: the loop over `lines` with its early return. */
  method CalculateWinner(squares: seq<Cell>) returns (r: Option<WinInfo>)
    requires |squares| == 9
    ensures r == Winner(squares)
  {
    for i := 0 to |Lines|
      invariant WinnerFrom(squares, i) == Winner(squares)
    {
      var (a, b, c) := Lines[i];
      if squares[a] != Empty && squares[a] == squares[b] && squares[a] == squares[c] {
        return Some(WinInfo(squares[a], Lines[i]));
      }
    }
    return None;
  }
}
