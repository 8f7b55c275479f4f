# Tic-tac-toe game logic

A model of the logic of a React tic-tac-toe component (`src/App.jsx`):

- the win check `calculateWinner`, which scans the eight winning triples in a fixed order (rows top to bottom, columns left to right, then the diagonals (0,4,8) and (2,4,6)) and reports the first one whose three squares hold the same mark;
- the `Board` component's status line and its `handleClick`, which either ignores a click or hands a copy of the board with one new mark to `onPlay`;
- the `Game` component's history state machine: `handlePlay`, `jumpTo`, `handleReset`, the show/hide toggle and the derived `xIsNext`.

Modules:

- `Wrappers`: `Option`, used where the JavaScript returns `null`.
- `Squares`: cells (`Empty` stands for the `null` square), square indices, the mover's mark, the empty board, and mark counting.
- `WinEvaluator`: the fixed table of triples. `Winner` is the specification: the first winning triple, or none. `CalculateWinner` is the source's loop with its early return, proved equal to it.
- `Board`: the status (`BoardStatus`, `StatusText`). The click (`ClickResult` specifies it; `HandleClick` copies the board into an array, as `slice()` does, and sets one element).
- `GameHistory`: the game's state `(history, currentMove, showSteps)` as a value, with one function per transition. It also defines the invariant `Reachable`: every board follows from the one before by a legal move of the player whose turn it was. It proves that turns alternate.
- `GameComponent`: class `Game`, whose fields are the three pieces of component state. Each event handler is a method whose new state is the matching transition of `GameHistory` applied to the old state.
- `Scenarios`: whole games played click by click: a top-row win for X, a drawn game, the row-before-column priority, and the starting status.

## Model

| member | source | states |
|---|---|---|
| `WinEvaluator.WinnerFrom` | src/App.jsx:123-129 | the scan from triple k on returns a winning triple at or after k with no winning triple between k and it, reported with its mark; it returns none exactly when no triple from k on wins |
| `WinEvaluator.Winner` | src/App.jsx:112-130 | a reported triple is one of the eight, its three squares all hold the reported mark, which is X or O, and it is the first winning triple in the fixed order; the result is none exactly when no triple wins (so the empty board has no winner) |
| `WinEvaluator.WinnerIsFirstWinningLine` | src/App.jsx:113-127 | whenever triple k wins and no earlier triple does, triple k and its mark are what is reported, whatever later triples also win |
| `WinEvaluator.CalculateWinner` | src/App.jsx:112-130 | the loop with early return computes exactly `Winner`: the first winning triple of the fixed order with its mark, or none |
| `Board.BoardStatus` | src/App.jsx:17-29 | a winner is reported exactly when some triple wins; a draw exactly when no triple wins and no square is empty; otherwise the next player, X when `xIsNext` and O otherwise; so a draw never coincides with a winner |
| `Board.StatusText` | src/App.jsx:22-29 | a status is a winner exactly when its line starts with "Winner: ", the next player exactly when it starts with "Next player: ", and a draw exactly when the line is "It's a draw!"; winner and turn lines are exactly that prefix followed by the mark's letter ("Winner: X", "Winner: O", "Next player: X", "Next player: O") |
| `Board.StatusTextInjective` | src/App.jsx:22-29 | the three kinds of status line ("Winner: …", "It's a draw!", "Next player: …") never display the same text for different statuses |
| `Board.ClickResult` | src/App.jsx:31-38 | the click is ignored exactly when the board has a winning triple or square i is taken; otherwise the board passed on has nine squares, the mover's mark at i and the old contents everywhere else |
| `Board.HandleClick` | src/App.jsx:31-38 | copying the board, setting square i of the copy and passing it on yields exactly `ClickResult` |
| `GameHistory.Play` | src/App.jsx:71-75 | the new history keeps boards 0..currentMove, discards later ones and ends with the new board; the pointer moves to that last board (old pointer + 1); the turn flips; the toggle is unchanged |
| `GameHistory.Jump` | src/App.jsx:77-79 | the pointer becomes the chosen move, so the turn is that move's parity; history and toggle are untouched and the displayed board is the chosen entry of the history |
| `GameHistory.ToggleSteps` | src/App.jsx:102 | the toggle flips and the history and pointer are untouched |
| `GameHistory.ClickAt` | src/App.jsx:31-37 | a click on a won board or a taken square leaves the state as it is; any other click plays the displayed board with the mover's mark at the clicked square |
| `GameHistory.ReachableBoardsHaveNineSquares` | src/App.jsx:35-37 | every board of a reachable history has nine squares |
| `GameHistory.ReachableMarkCounts` | src/App.jsx:68 | turns alternate: board k of a reachable history holds (k+1)/2 crosses, k/2 noughts and 9-k empty squares |
| `GameHistory.ReachableHistoryIsShort` | src/App.jsx:71-75 | a reachable history holds at most ten boards |
| `GameHistory.XIsNextIffMarksBalanced` | src/App.jsx:68 | in a reachable state X is to move exactly when X and O have placed the same number of marks on the displayed board |
| `GameHistory.InitialIsReachable` | src/App.jsx:65-66 | the starting state is reachable, displays the empty board and has X to move |
| `GameHistory.ClickPreservesReachable` | src/App.jsx:31-37 | a click keeps the history reachable |
| `GameHistory.JumpPreservesReachable` | src/App.jsx:77-79 | a jump to a recorded move keeps the state reachable |
| `GameHistory.JumpIdempotent` | src/App.jsx:77-79 | jumping twice to the same move gives the state that jumping once gives |
| `GameHistory.BranchOverwrites` | src/App.jsx:72 | playing, jumping back to the starting move and playing again keeps the boards up to that move and then only the second new board; the abandoned board is gone |
| `GameComponent.Game.constructor` | src/App.jsx:65-67 | a new game holds one empty board, pointer 0 and a hidden move list |
| `GameComponent.Game.HandlePlay` | src/App.jsx:71-75 | the fields become `Play` of the old state: the history truncated after the pointer plus the new board, with the pointer on that board |
| `GameComponent.Game.JumpTo` | src/App.jsx:77-79 | the fields become `Jump` of the old state: only the pointer changes |
| `GameComponent.Game.HandleReset` | src/App.jsx:81-85 | the fields become the starting state: one empty board, pointer 0, move list hidden |
| `GameComponent.Game.ToggleShowSteps` | src/App.jsx:102 | only the toggle flips, and the object invariant is kept |
| `GameComponent.Game.Click` | src/App.jsx:31-37 | `handleClick` on the displayed board, wired to `handlePlay`, changes the fields as `ClickAt` does |
| `Scenarios.TopRowWinForX` | src/App.jsx:123-126 | clicks on 0, 3, 1, 4, 2 give the board X X X / O O _ / _ _ _; the top row is reported for X, the status reads "Winner: X", and a further click on free square 5 changes nothing |
| `Scenarios.RowBeforeColumn` | src/App.jsx:113-127 | a board on which both the top row and the left column win reports the top row |
| `Scenarios.DrawGameOpening` | src/App.jsx:71-75 | clicks on 0, 1, 2, 4 from the start build the expected five-board history with pointer 4 |
| `Scenarios.DrawGame` | src/App.jsx:71-75 | from there, clicks on 7, 5, 3, 6, 8 fill the board X O X / X O O / O X X, with pointer 9 |
| `Scenarios.DrawStatus` | src/App.jsx:20-26 | that full board has no winning triple and its status reads "It's a draw!" |
| `Scenarios.InitialStatus` | src/App.jsx:28 | the starting position, which a reset restores, reads "Next player: X" |

## Left out

- Rendering: the `Square` component, the JSX trees, CSS class names, the winning-square highlighting (`winningLine.includes`) and the move list's `<li>`/`<button>` elements. They are presentation, not logic.
- The move labels ("Go to game start", "Go to move #n") and the Show/Hide button text. They are display strings with no logic to prove.
- `useState` and React's re-render scheduling. Each handler's updates are applied at once to the fields of `Game`.
- GameComponent.Game.JumpTo: requires an index of the history. The source does not check its argument, and the move list only offers existing indices.
- GameComponent.Game.Click: requires the displayed board to have nine squares. `calculateWinner` reads squares 0 to 8. Every board that clicks put into the history has nine squares (`ReachableBoardsHaveNineSquares`).
- `handlePlay` accepts any board as `nextSquares`, as in the source. The turn-alternation lemmas hold for histories built by clicks (`Reachable`), not for arbitrary calls to `handlePlay`.
- Board.StatusText: the text for the impossible status "winner with an empty mark" is not modelled. JavaScript would print "null" there.
