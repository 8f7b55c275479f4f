/**
 * Cells and boards. A board is the array of nine squares laid out row-major
 * on the 3x3 grid; the game's `null` square is `Empty`.
 */
module Squares {

  datatype Cell = Empty | X | O

  /** A square position on the board. */
  type Index = i: int | 0 <= i < 9

  /** The mark placed by the player to move: X when `xIsNext`, otherwise O. */
  function Mark(xIsNext: bool): Cell
  {
    if xIsNext then X else O
  }

  /** The board every game starts from: nine empty squares. */
  function EmptyBoard(): seq<Cell>
  {
    [Empty, Empty, Empty, Empty, Empty, Empty, Empty, Empty, Empty]
  }

  /** Number of squares of `b` holding `c`. */
  function Count(b: seq<Cell>, c: Cell): nat
  {
    if b == [] then 0 else (if b[0] == c then 1 else 0) + Count(b[1..], c)
  }

  /** A board whose squares all hold `c` counts every square for `c` and none for the other values. */
  lemma {:induction false} CountUniform(b: seq<Cell>, c: Cell, d: Cell)
    requires forall j :: 0 <= j < |b| ==> b[j] == c
    requires d != c
    ensures Count(b, c) == |b| && Count(b, d) == 0
  {
    if b != [] {
      CountUniform(b[1..], c, d);
    }
  }

  /**
   * Placing mark `m` on an empty square adds one `m`, removes one `Empty` and
   * leaves the count of the other mark alone.
   */
  lemma {:induction false} CountPlace(b: seq<Cell>, i: nat, m: Cell, other: Cell)
    requires i < |b| && b[i] == Empty
    requires m != Empty && other != Empty && other != m
    ensures Count(b[i := m], m) == Count(b, m) + 1
    ensures Count(b[i := m], Empty) + 1 == Count(b, Empty)
    ensures Count(b[i := m], other) == Count(b, other)
  {
    if i == 0 {
      assert b[i := m][1..] == b[1..];
    } else {
      assert b[i := m][1..] == b[1..][i - 1 := m];
      CountPlace(b[1..], i - 1, m, other);
    }
  }
}
