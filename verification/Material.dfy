/** Conservation of material: what each move takes off the board, and the total over a run. */
module Material {
  import opened Squares
  import opened Rules
  import opened Settling
  import opened GameState
  import opened Positions
  import opened Runs
  import opened Games

  function RowsTally(rows: seq<seq<char>>, c: char): nat {
    if rows == [] then 0 else multiset(rows[0])[c] + RowsTally(rows[1..], c)
  }

  /** How many cells of the board hold c. */
  function Tally(b: Board, c: char): nat { RowsTally(b, c) }

  lemma RowTally(row: seq<char>, k: nat, p: char, c: char)
    requires k < |row|
    ensures multiset(row[k := p])[c] == multiset(row)[c] - One(row[k] == c) + One(p == c)
  {
    assert row[k] in multiset(row);
    assert multiset(row[k := p]) == multiset(row) - multiset{row[k]} + multiset{p};
  }

  lemma {:induction false} RowsPutTally(rows: seq<seq<char>>, r: nat, k: nat, p: char, c: char)
    requires r < |rows| && k < |rows[r]|
    ensures RowsTally(rows[r := rows[r][k := p]], c) == RowsTally(rows, c) - One(rows[r][k] == c) + One(p == c)
  {
    var rows' := rows[r := rows[r][k := p]];
    if r == 0 {
      RowTally(rows[0], k, p, c);
      assert rows'[1..] == rows[1..];
    } else {
      RowsPutTally(rows[1..], r - 1, k, p, c);
      assert rows'[1..] == rows[1..][r - 1 := rows[r][k := p]];
    }
  }

  lemma PutTally(b: Board, s: Cell, p: char, c: char)
    ensures Tally(Put(b, s, p), c) == Tally(b, c) - One(At(b, s) == c) + One(p == c)
  {
    RowsPutTally(b, s.row, s.col, p, c);
  }

  /** What a move takes: the piece on its target, or the pawn passed over; '.' if nothing. */
  function Taken(b: Board, white: bool, f: Cell, t: Cell): char {
    if EnPassantCapture(b, f, t) then (if white then 'p' else 'P') else At(b, t)
  }

  /** A legal move takes nothing but an enemy piece. */
  lemma TakesOnlyEnemies(l: Layout, white: bool, f: Cell, t: Cell)
    requires Sound(l, white) && MayMove(l, white, f, t)
    ensures Taken(l.board, white, f, t) != '.' ==> IsWhite(Taken(l.board, white, f, t)) != white
  {
  }

  lemma TrialTally(b: Board, f: Cell, t: Cell, c: char)
    requires f != t
    ensures Tally(Trial(b, f, t), c) == Tally(b, c) - One(At(b, t) == c) + One('.' == c)
  {
    PutTally(b, t, At(b, f), c);
    PutTally(Put(b, t, At(b, f)), f, '.', c);
  }

  lemma CastlingTally(b: Board, f: Cell, t: Cell, c: char)
    requires CastlingMove(At(b, f), f, t) && f.row == t.row && f.col == 4
    requires At(b, t) == '.' && At(b, RookSquare(f, t)) == '.'
    ensures Tally(Trial(ShiftRook(b, f, t), f, t), c) == Tally(b, c)
  {
    var corner, beside := Corner(f, t), RookSquare(f, t);
    var b1 := Put(b, beside, At(b, corner));
    PutTally(b, beside, At(b, corner), c);
    PutTally(b1, corner, '.', c);
    TrialTally(Put(b1, corner, '.'), f, t, c);
  }

  lemma PassedTally(b: Board, f: Cell, t: Cell, c: char)
    requires f.col != t.col && f.row != t.row && At(b, t) == '.'
    ensures Tally(Trial(Put(b, Passed(f, t), '.'), f, t), c) ==
      Tally(b, c) - One(At(b, Passed(f, t)) == c) + One('.' == c)
  {
    PutTally(b, Passed(f, t), '.', c);
    TrialTally(Put(b, Passed(f, t), '.'), f, t, c);
  }

  lemma ExecutionCases(l: Layout, white: bool, f: Cell, t: Cell)
    requires Sound(l, white) && MayMove(l, white, f, t)
    ensures f != t
    ensures ExecutedBoard(l.board, f, t) ==
      if CastlingMove(At(l.board, f), f, t) then Trial(ShiftRook(l.board, f, t), f, t)
      else if EnPassantCapture(l.board, f, t) then Trial(Put(l.board, Passed(f, t), '.'), f, t)
      else Trial(l.board, f, t)
  {
    if CastlingMove(At(l.board, f), f, t) {
      CastlesFromHome(l, white, f, t);
    } else if EnPassantCapture(l.board, f, t) {
      TakesEnPassant(l, white, f, t);
    }
  }

  lemma CastlingExecution(l: Layout, white: bool, f: Cell, t: Cell, c: char)
    requires Sound(l, white) && MayMove(l, white, f, t) && CastlingMove(At(l.board, f), f, t)
    ensures Tally(ExecutedBoard(l.board, f, t), c) == Tally(l.board, c) && At(l.board, t) == '.'
  {
    ExecutionCases(l, white, f, t);
    CastlesFromHome(l, white, f, t);
    CastlingTally(l.board, f, t, c);
  }

  lemma PassedExecution(l: Layout, white: bool, f: Cell, t: Cell, c: char)
    requires Sound(l, white) && MayMove(l, white, f, t) && EnPassantCapture(l.board, f, t)
    ensures Tally(ExecutedBoard(l.board, f, t), c) ==
      Tally(l.board, c) - One((if white then 'p' else 'P') == c) + One('.' == c)
  {
    ExecutionCases(l, white, f, t);
    TakesEnPassant(l, white, f, t);
    PassedTally(l.board, f, t, c);
  }

  /** Executing a move takes that off the board and leaves an empty square for it, nothing else. */
  lemma ExecutionTally(l: Layout, white: bool, f: Cell, t: Cell, c: char)
    requires Sound(l, white) && MayMove(l, white, f, t)
    ensures Tally(ExecutedBoard(l.board, f, t), c) ==
      Tally(l.board, c) - One(Taken(l.board, white, f, t) == c) + One('.' == c)
  {
    if CastlingMove(At(l.board, f), f, t) {
      CastlingExecution(l, white, f, t, c);
    } else if EnPassantCapture(l.board, f, t) {
      PassedExecution(l, white, f, t, c);
    } else {
      ExecutionCases(l, white, f, t);
      TrialTally(l.board, f, t, c);
    }
  }

  /** The net change of a completed move in the number of cells that hold c. */
  function Change(b: Board, white: bool, ply: Ply, c: char): int {
    One('.' == c) - One(Taken(b, white, ply.from, ply.to) == c)
    + match KindOf(b, ply)
      case None => 0
      case Some(kind) => One(Crowned(white, kind) == c) - One((if white then 'P' else 'p') == c)
  }

  /**
    A completed move takes off exactly the captured enemy piece, if any, and exchanges a
    promoted pawn for one piece of its own colour; castling only relocates.
   */
  lemma PlyTally(st: State, ply: Ply, d: nat, c: char)
    requires Sound(st.l, st.whiteToMove) && PlyTo(st, ply, d).Some?
    ensures Tally(PlyTo(st, ply, d).value.l.board, c) ==
      Tally(st.l.board, c) + Change(st.l.board, st.whiteToMove, ply, c)
  {
    PlyCompletes(st, ply, d);
    PlyKeepsSound(st, ply, d);
    PlayedTally(st.l, st.whiteToMove, ply, c);
  }

  lemma PlayedTally(l: Layout, white: bool, ply: Ply, c: char)
    requires Sound(l, white) && MayMove(l, white, ply.from, ply.to)
    requires CrownsRightly(l, ply.from, ply.to, KindOf(l.board, ply))
    ensures Tally(Played(l, ply.from, ply.to, KindOf(l.board, ply)).board, c) ==
      Tally(l.board, c) + Change(l.board, white, ply, c)
  {
    ExecutionTally(l, white, ply.from, ply.to, c);
    if KindOf(l.board, ply).Some? {
      PutTally(ExecutedBoard(l.board, ply.from, ply.to), ply.to, Crowned(white, ply.kind), c);
    }
  }

  // ------------------------------------------------------------------ the total

  function PieceCount(b: Board): int { 64 - Tally(b, '.') }

  predicate IsCapture(r: Record) {
    r.captured != '.' || (IsPawn(r.piece) && r.from.col != r.to.col)
  }

  function CapturesIn(h: seq<Record>): nat {
    if h == [] then 0
    else CapturesIn(h[..|h| - 1]) + One(IsCapture(h[|h| - 1]))
  }

  lemma {:induction false} UniformRow(row: seq<char>, c: char)
    requires forall k :: 0 <= k < |row| ==> row[k] == c
    ensures multiset(row)[c] == |row|
  {
    if row != [] {
      UniformRow(row[1..], c);
      assert row == [row[0]] + row[1..];
      assert multiset(row) == multiset{row[0]} + multiset(row[1..]);
    }
  }

  lemma {:induction false} MiddleRows(b: Board, k: nat)
    requires k <= 8 && forall s: Cell :: At(b, s) == '.' <==> 2 <= s.row < 6
    ensures RowsTally(b[k..], '.') == if k <= 2 then 32 else if k <= 6 then 8 * (6 - k) else 0
    decreases 8 - k
  {
    if k < 8 {
      MiddleRows(b, k + 1);
      var rows, row := b[k..], b[k];
      assert rows[1..] == b[k + 1..] && rows[0] == row;
      assert forall c :: 0 <= c < 8 ==> row[c] == At(b, Square(k, c));
      if 2 <= k < 6 {
        UniformRow(row, '.');
      } else {
        assert '.' !in row;
        assert '.' !in multiset(row);
      }
    }
  }

  lemma MiddleCount(b: Board)
    requires forall s: Cell :: At(b, s) == '.' <==> 2 <= s.row < 6
    ensures PieceCount(b) == 32
  {
    MiddleRows(b, 0);
    assert b[0..] == b;
  }

  lemma StartMiddle(b: Board)
    requires b == START_BOARD
    ensures forall s: Cell :: At(b, s) == '.' <==> 2 <= s.row < 6
  {
  }

  lemma OneTakenAtMost(l: Layout, white: bool, ply: Ply)
    requires Sound(l, white) && MayMove(l, white, ply.from, ply.to)
    requires CrownsRightly(l, ply.from, ply.to, KindOf(l.board, ply))
    ensures var r := Record(ply.from, ply.to, At(l.board, ply.from), At(l.board, ply.to), l.ep, l.moved);
      Change(l.board, white, ply, '.') == One(IsCapture(r))
  {
    if EnPassantCapture(l.board, ply.from, ply.to) { TakesEnPassant(l, white, ply.from, ply.to); }
    if KindOf(l.board, ply).Some? { CrownedIsNoKing(white, ply.kind); }
  }

  /** Along every run, the pieces on the board and the captures made add up to 32. */
  lemma {:induction false} PiecesPlusCaptures(plies: seq<Ply>, d: nat)
    requires Run(plies, d).Some?
    ensures var st := Run(plies, d).value; PieceCount(st.l.board) + CapturesIn(st.history) == 32
  {
    if plies == [] {
      var start := Run(plies, d).value.l.board;
      StartMiddle(start);
      MiddleCount(start);
    } else {
      var before, ply := plies[..|plies| - 1], plies[|plies| - 1];
      var st, st' := Run(before, d).value, Run(plies, d).value;
      RunsAreReached(before, d);
      PiecesPlusCaptures(before, d);
      PlyTally(st, ply, d, '.');
      PlyRecords(st, ply, d);
      PlyCompletes(st, ply, d);
      PlyKeepsSound(st, ply, d);
      OneTakenAtMost(st.l, st.whiteToMove, ply);
      assert st'.history[..|st'.history| - 1] == st.history;
    }
  }
}
