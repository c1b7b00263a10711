/** Board coordinates, the 8x8 board of FEN characters, and piece colours. */
module Squares {

  datatype Option<+T> = None | Some(value: T)

  /** Row 0 is rank 8, column 0 is the a-file. */
  datatype Square = Square(row: int, col: int) {
    predicate OnBoard() { 0 <= row < 8 && 0 <= col < 8 }
  }

  type Cell = s: Square | s.OnBoard() witness Square(0, 0)

  type Board = b: seq<seq<char>> | |b| == 8 && forall r :: 0 <= r < 8 ==> |b[r]| == 8
    witness seq(8, _ => seq(8, _ => '.'))

  function At(b: Board, s: Cell): char {
    b[s.row][s.col]
  }

  function Put(b: Board, s: Cell, p: char): (b': Board)
    ensures forall t: Cell :: At(b', t) == if t == s then p else At(b, t)
  {
    b[s.row := b[s.row][s.col := p]]
  }

  /** Two boards with the same character on every cell are the same board. */
  lemma SameCells(b: Board, b': Board)
    requires forall t: Cell :: At(b, t) == At(b', t)
    ensures b == b'
  {
    forall r | 0 <= r < 8
      ensures b[r] == b'[r]
    {
      forall c | 0 <= c < 8
        ensures b[r][c] == b'[r][c]
      {
        assert At(b, Square(r, c)) == At(b', Square(r, c));
      }
    }
  }

  /** The scan order of every nested board loop: row by row, left to right. */
  function Index(s: Cell): (k: nat)
    ensures k < 64
  {
    8 * s.row + s.col
  }

  /** Rows from the top, and within a row from the left. */
  lemma IndexOrders(s: Cell, t: Cell)
    ensures Index(s) < Index(t) <==> s.row < t.row || (s.row == t.row && s.col < t.col)
  {
  }

  function CellAt(k: nat): (s: Cell)
    requires k < 64
    ensures Index(s) == k
  {
    Square(k / 8, k % 8)
  }

  lemma CellAtIndex(s: Cell)
    ensures CellAt(Index(s)) == s
  {
  }

  predicate IsWhite(p: char) { 'A' <= p <= 'Z' }

  predicate IsPawn(p: char) { p == 'P' || p == 'p' }

  predicate IsKing(p: char) { p == 'K' || p == 'k' }

  function KingOf(white: bool): char { if white then 'K' else 'k' }

  /** Where a side's king starts. */
  function HomeOf(white: bool): Cell { Square(if white then 7 else 0, 4) }

  function RookOf(white: bool): char { if white then 'R' else 'r' }

  /** A character that stands on a board: empty, or one of the twelve pieces. */
  predicate IsPieceOrEmpty(p: char) {
    p == '.' || p in "PNBRQKpnbrqk"
  }

  predicate Holds(b: Board, s: Cell, white: bool) {
    At(b, s) != '.' && IsWhite(At(b, s)) == white
  }

  function One(b: bool): nat { if b then 1 else 0 }

  function Abs(x: int): nat { if x < 0 then -x else x }

  const START_BOARD: Board := [
    "rnbqkbnr", "pppppppp", "........", "........",
    "........", "........", "PPPPPPPP", "RNBQKBNR"]
}
