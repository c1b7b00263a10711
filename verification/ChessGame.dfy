/** The rules engine itself: the class whose methods update the board and the flags in place. */
module ChessGameClass {
  import opened Squares
  import opened Rules
  import opened Settling
  import opened GameState
  import opened Text
  import opened Fen

  class ChessGame {
    var board: Board
    var whiteToMove: bool
    var gameOver: bool
    var lastMoveFrom: Option<Cell>
    var lastMoveTo: Option<Cell>
    var enPassantTarget: Option<Cell>
    /** whiteKingMoved and blackKingMoved, and the four flags whiteRookAMoved to blackRookHMoved. */
    var moved: Moved
    var pendingResult: Option<GameResult>
    var history: seq<Record>

    function View(): Layout
      reads this
    {
      Layout(board, enPassantTarget, moved)
    }

    /** The abstract value of the object: all of its fields. */
    function Now(): State
      reads this
    {
      State(View(), whiteToMove, gameOver, lastMoveFrom, lastMoveTo, pendingResult, history)
    }

    constructor ()
      ensures Now() == START_STATE
    {
      board := START_BOARD;
      whiteToMove := true;
      gameOver := false;
      enPassantTarget := None;
      lastMoveFrom, lastMoveTo := None, None;
      moved := Moved(false, false, false, false, false, false);
      pendingResult := None;
      history := [];
    }

    method Reset()
      modifies this
      ensures Now() == START_STATE
    {
      board := START_BOARD;
      whiteToMove := true;
      gameOver := false;
      enPassantTarget := None;
      lastMoveFrom, lastMoveTo := None, None;
      moved := Moved(false, false, false, false, false, false);
      pendingResult := None;
      history := [];
    }

    // ------------------------------------------------------------- geometry

    method IsPathClear(f: Cell, t: Cell) returns (clear: bool)
      requires OnLine(f, t)
      ensures clear <==> PathClear(board, f, t)
    {
      var dr := UnitStep(t.row - f.row);
      var dc := UnitStep(t.col - f.col);
      var r, c := f.row + dr, f.col + dc;
      while r != t.row || c != t.col
        invariant Square(r, c).OnBoard()
        invariant f != t ==> Square(r, c) == t || Between(f, Square(r, c), t)
        invariant f == t ==> Square(r, c) == t
        invariant forall s: Cell :: Between(f, s, t) && Between(f, s, Square(r, c)) ==> At(board, s) == '.'
        decreases Abs(t.row - r) + Abs(t.col - c)
      {
        var here: Cell := Square(r, c);
        if board[r][c] != '.' {
          assert At(board, here) != '.';
          return false;
        }
        assert At(board, here) == '.';
        r, c := r + dr, c + dc;
        assert forall s: Cell :: Between(f, s, Square(r, c)) ==> Between(f, s, here) || s == here;
      }
      return true;
    }

    method PawnGeometry(p: char, f: Cell, t: Cell) returns (b: bool)
      ensures b <==> PawnReach(View(), IsWhite(p), f, t)
    {
      var dir := if IsWhite(p) then -1 else 1;
      var startRow := if IsWhite(p) then 6 else 1;
      if f.col == t.col && t.row == f.row + dir && board[t.row][t.col] == '.' { return true; }
      if f.col == t.col && f.row == startRow && t.row == f.row + 2 * dir && board[t.row][t.col] == '.' {
        var clear := IsPathClear(f, t);
        if clear { return true; }
      }
      if Abs(t.col - f.col) == 1 && t.row == f.row + dir
        && (board[t.row][t.col] != '.' || enPassantTarget == Some(t)) { return true; }
      return false;
    }

    /** The ghost depth bounds the recursion; the code itself has none. */
    method IsLegalGeometry(p: char, f: Cell, t: Cell, ghost d: nat) returns (b: bool)
      requires GeometryTo(View(), p, f, t, d) != Unsettled
      ensures GeometryTo(View(), p, f, t, d) == Of(b)
      decreases d, 0
    {
      if f == t { return false; }
      var target := board[t.row][t.col];
      if target != '.' && IsWhite(target) == IsWhite(p) { return false; }
      var dr, dc := Abs(t.row - f.row), Abs(t.col - f.col);
      if p == 'P' || p == 'p' {
        b := PawnGeometry(p, f, t);
      } else if p == 'R' || p == 'r' {
        b := f.row == t.row || f.col == t.col;
        if b { b := IsPathClear(f, t); }
      } else if p == 'N' || p == 'n' {
        b := (dr == 2 && dc == 1) || (dr == 1 && dc == 2);
      } else if p == 'B' || p == 'b' {
        b := dr == dc;
        if b { b := IsPathClear(f, t); }
      } else if p == 'Q' || p == 'q' {
        b := dr == dc || f.row == t.row || f.col == t.col;
        if b { b := IsPathClear(f, t); }
      } else if p == 'K' || p == 'k' {
        b := dr <= 1 && dc <= 1;
        if !b && dr == 0 && dc == 2 { b := CanCastle(p, f, t, d - 1); }
      } else {
        b := false;
      }
    }

    method CanCastle(king: char, f: Cell, t: Cell, ghost d: nat) returns (b: bool)
      requires TwoFiles(f, t)
      requires CanCastleTo(View(), king, f, t, d) != Unsettled
      ensures CanCastleTo(View(), king, f, t, d) == Of(b)
      decreases d, 5
    {
      var white := IsWhite(king);
      var inCheck := IsInCheck(white, d);
      if inCheck { return false; }
      if white && moved.wK { return false; }
      if !white && moved.bK { return false; }
      var rookCol := if t.col > f.col then 7 else 0;
      if white && ((t.col > f.col && moved.wH) || (t.col < f.col && moved.wA)) { return false; }
      if !white && ((t.col > f.col && moved.bH) || (t.col < f.col && moved.bA)) { return false; }
      var clear := IsPathClear(f, Square(f.row, rookCol));
      if !clear { return false; }
      var step := if t.col > f.col then 1 else -1;
      var attacked := IsSquareAttacked(f.row, f.col + step, !white, d);
      return !attacked;
    }

    method IsInCheck(white: bool, ghost d: nat) returns (b: bool)
      requires InCheckTo(View(), white, d) != Unsettled
      ensures InCheckTo(View(), white, d) == Of(b)
      decreases d, 4
    {
      var king := if white then 'K' else 'k';
      var kr, kc := -1, -1;
      ghost var at := KingCell(board, white);
      for r := 0 to 8
        invariant if kr == -1 then at.Some? ==> r <= at.value.row else at == Some(Square(kr, kc))
      {
        for c := 0 to 8
          invariant kr == -1 ==> at.Some? ==> r < at.value.row || (r == at.value.row && c <= at.value.col)
          invariant kr != -1 ==> at == Some(Square(kr, kc))
        {
          if board[r][c] == king {
            kr, kc := r, c;
            assert At(board, Square(r, c)) == king;
            break;
          }
        }
        if kr != -1 { break; }
      }
      if kr == -1 { return false; }
      b := IsSquareAttacked(kr, kc, !white, d);
    }

    method IsSquareAttacked(row: int, col: int, byWhite: bool, ghost d: nat) returns (b: bool)
      requires Square(row, col).OnBoard()
      requires AttackedTo(View(), Square(row, col), byWhite, d) != Unsettled
      ensures AttackedTo(View(), Square(row, col), byWhite, d) == Of(b)
      decreases d, 3
    {
      ghost var l := View();
      ghost var target: Cell := Square(row, col);
      ghost var hit := ScanFinds(l, target, byWhite, d);
      for r := 0 to 8
        invariant hit.Some? ==> r <= hit.value.row
      {
        for c := 0 to 8
          invariant hit.Some? ==> r < hit.value.row || (r == hit.value.row && c <= hit.value.col)
        {
          var p := board[r][c];
          assert p == At(l.board, Square(r, c));
          PassesOrHits(l, target, byWhite, d, hit, Square(r, c));
          if p != '.' && IsWhite(p) == byWhite {
            var reaches := IsLegalGeometry(p, Square(r, c), Square(row, col), d);
            if reaches { return true; }
          }
        }
      }
      return false;
    }

    // ------------------------------------------------------------- legality

    /** Moves the piece on the board itself, asks, and moves it back. */
    method IsLegal(f: Cell, t: Cell, ghost d: nat) returns (b: bool)
      requires LegalTo(View(), whiteToMove, f, t, d) != Unsettled
      modifies this`board
      ensures Now() == old(Now())
      ensures LegalTo(Now().l, whiteToMove, f, t, d) == Of(b)
    {
      var piece := board[f.row][f.col];
      if piece == '.' || IsWhite(piece) != whiteToMove { return false; }
      var shaped := IsLegalGeometry(piece, f, t, d);
      if !shaped { return false; }
      ghost var before := board;
      var target := board[t.row][t.col];
      board := Put(board, t, piece);
      board := Put(board, f, '.');
      var inCheck := IsInCheck(IsWhite(piece), d);
      board := Put(board, f, piece);
      board := Put(board, t, target);
      SameCells(board, before);
      return !inCheck;
    }

    /** The two inner loops of HasAnyLegalMove; hit is where the whole scan ends. */
    method HasLegalMoveFrom(f: Cell, ghost hit: Option<(Cell, Cell)>, ghost d: nat) returns (b: bool)
      requires hit.None? ==> forall f: Cell, t: Cell :: !Counts(View(), whiteToMove, d, f, t)
      requires hit.Some? ==> CountsFirst(View(), whiteToMove, d, hit.value.0, hit.value.1)
      requires hit.Some? ==> Index(f) <= Index(hit.value.0)
      requires hit.Some? ==> LegalTo(View(), whiteToMove, hit.value.0, hit.value.1, d) == Yes
      modifies this`board
      ensures board == old(board)
      ensures b <==> hit.Some? && hit.value.0 == f
    {
      ghost var st := Now();
      for r := 0 to 8
        invariant Now() == st
        invariant hit.Some? && hit.value.0 == f ==> r <= hit.value.1.row
      {
        for c := 0 to 8
          invariant Now() == st
          invariant hit.Some? && hit.value.0 == f ==> 8 * r + c <= Index(hit.value.1)
        {
          CountsOrPasses(st.l, st.whiteToMove, d, hit, f, Square(r, c));
          b := IsLegal(f, Square(r, c), d);
          if b { return; }
        }
      }
      return false;
    }

    /** The loop over one row of HasAnyLegalMove. */
    method HasLegalMoveFromRow(r: int, ghost hit: Option<(Cell, Cell)>, ghost d: nat) returns (b: bool)
      requires 0 <= r < 8
      requires hit.None? ==> forall f: Cell, t: Cell :: !Counts(View(), whiteToMove, d, f, t)
      requires hit.Some? ==> CountsFirst(View(), whiteToMove, d, hit.value.0, hit.value.1)
      requires hit.Some? ==> r <= hit.value.0.row
      requires hit.Some? ==> LegalTo(View(), whiteToMove, hit.value.0, hit.value.1, d) == Yes
      modifies this`board
      ensures board == old(board)
      ensures b <==> hit.Some? && hit.value.0.row == r
    {
      ghost var st := Now();
      for c := 0 to 8
        invariant Now() == st
        invariant hit.Some? ==> 8 * r + c <= Index(hit.value.0)
      {
        var p := board[r][c];
        if p == '.' || IsWhite(p) != whiteToMove {
          OthersDoNotCount(st.l, st.whiteToMove, d, hit, Square(r, c));
          continue;
        }
        b := HasLegalMoveFrom(Square(r, c), hit, d);
        if b { return; }
      }
      return false;
    }

    method HasAnyLegalMove(ghost d: nat) returns (b: bool)
      requires AnyLegalTo(View(), whiteToMove, d) != Unsettled
      modifies this`board
      ensures board == old(board)
      ensures AnyLegalTo(View(), whiteToMove, d) == Of(b)
    {
      ghost var st := Now();
      ghost var hit := AnyFinds(st.l, st.whiteToMove, d);
      for r := 0 to 8
        invariant Now() == st
        invariant hit.Some? ==> r <= hit.value.0.row
      {
        b := HasLegalMoveFromRow(r, hit, d);
        if b { return; }
      }
      return false;
    }

    method CheckAndRecordGameOver(ghost d: nat)
      requires CheckOver(Now(), d).Some?
      modifies this
      ensures CheckOver(old(Now()), d) == Some(Now())
    {
      var any := HasAnyLegalMove(d);
      if any { return; }
      gameOver := true;
      var inCheck := IsInCheck(whiteToMove, d);
      pendingResult := Some(if inCheck then (if whiteToMove then BlackWins else WhiteWins) else Draw);
    }

    // ------------------------------------------------------------ execution

    method UpdateCastlingFlags(piece: char, f: Cell)
      modifies this`moved
      ensures moved == FlagsAfter(old(moved), piece, f)
    {
      if piece == 'K' { moved := moved.(wK := true); }
      if piece == 'k' { moved := moved.(bK := true); }
      if piece == 'R' {
        if f.row == 7 && f.col == 0 { moved := moved.(wA := true); }
        if f.row == 7 && f.col == 7 { moved := moved.(wH := true); }
      }
      if piece == 'r' {
        if f.row == 0 && f.col == 0 { moved := moved.(bA := true); }
        if f.row == 0 && f.col == 7 { moved := moved.(bH := true); }
      }
    }

    /** The board part of executeMove. */
    method MovePieces(f: Cell, t: Cell)
      modifies this`board
      ensures board == ExecutedBoard(old(board), f, t)
    {
      var piece := board[f.row][f.col];
      if (piece == 'K' || piece == 'k') && Abs(t.col - f.col) == 2 {
        if t.col > f.col {
          board := Put(board, Square(f.row, 5), board[f.row][7]);
          board := Put(board, Square(f.row, 7), '.');
        } else {
          board := Put(board, Square(f.row, 3), board[f.row][0]);
          board := Put(board, Square(f.row, 0), '.');
        }
      }
      if (piece == 'P' || piece == 'p') && t.col != f.col && board[t.row][t.col] == '.' {
        board := Put(board, Square(f.row, t.col), '.');
      }
      board := Put(board, t, piece);
      board := Put(board, f, '.');
    }

    method ExecuteMove(f: Cell, t: Cell)
      modifies this
      ensures Now() == Execute(old(Now()), f, t)
    {
      var piece := board[f.row][f.col];
      var captured := board[t.row][t.col];
      history := history + [Record(f, t, piece, captured, enPassantTarget, moved)];
      MovePieces(f, t);
      UpdateCastlingFlags(piece, f);
      enPassantTarget := if (piece == 'P' || piece == 'p') && Abs(t.row - f.row) == 2
        then Some(Square((f.row + t.row) / 2, f.col)) else None;
      lastMoveFrom, lastMoveTo := Some(f), Some(t);
    }

    // ------------------------------------------------------------------ FEN

    static method PrintOneRow(row: seq<char>) returns (out: string)
      ensures out == PrintRow(row, 0)
    {
      var empty := 0;
      out := "";
      for i := 0 to |row|
        invariant out + PrintRow(row[i..], empty) == PrintRow(row, 0)
      {
        assert row[i..][1..] == row[i + 1..];
        if row[i] == '.' {
          empty := empty + 1;
        } else {
          if empty > 0 {
            out := out + Decimal(empty);
            empty := 0;
          }
          out := out + [row[i]];
        }
      }
      if empty > 0 { out := out + Decimal(empty); }
    }

    method HalfmovesSinceReset() returns (halfmove: nat)
      ensures halfmove == HalfmoveClock(history)
    {
      halfmove := 0;
      var i := |history|;
      assert history[..i] == history;
      while i > 0
        invariant 0 <= i <= |history|
        invariant halfmove + HalfmoveClock(history[..i]) == HalfmoveClock(history)
      {
        var rec := history[i - 1];
        assert history[..i][..i - 1] == history[..i - 1];
        if rec.piece == 'P' || rec.piece == 'p' || rec.captured != '.' { break; }
        halfmove := halfmove + 1;
        i := i - 1;
      }
    }

    method PrintPlacement() returns (placement: string)
      ensures placement == Join(PrintRows(board), '/')
    {
      var rows: seq<string> := [];
      for r := 0 to 8
        invariant rows == PrintRows(board)[..r]
      {
        var out := PrintOneRow(board[r]);
        rows := rows + [out];
      }
      assert rows == PrintRows(board);
      placement := Join(rows, '/');
    }

    /** One side's two letters. */
    method PrintRights(white: bool) returns (rights: string)
      ensures rights == Rights(View(), white)
    {
      var m := moved;
      var kingMoved := if white then m.wK else m.bK;
      var rookHMoved, rookAMoved := if white then m.wH else m.bH, if white then m.wA else m.bA;
      var row, king, rook := if white then 7 else 0, KingOf(white), RookOf(white);
      rights := "";
      if !kingMoved && !rookHMoved && board[row][4] == king && board[row][7] == rook { rights := rights + [king]; }
      if !kingMoved && !rookAMoved && board[row][4] == king && board[row][0] == rook {
        rights := rights + if white then "Q" else "q";
      }
    }

    method PrintCastling() returns (castling: string)
      ensures castling == CastlingField(View())
    {
      castling := PrintRights(true);
      var blacks := PrintRights(false);
      castling := castling + blacks;
      if castling == "" { castling := "-"; }
    }

    method ExportFEN() returns (fen: string)
      ensures fen == FenOf(Now())
    {
      var placement := PrintPlacement();
      var side := if whiteToMove then "w" else "b";
      var castling := PrintCastling();
      var enPassant := if enPassantTarget.Some? then Algebraic(enPassantTarget.value) else "-";
      var halfmove := HalfmovesSinceReset();
      var fullmove := |history| / 2 + 1;
      fen := placement + " " + side + " " + castling + " " + enPassant + " "
        + Decimal(halfmove) + " " + Decimal(fullmove);
      FenIs(Now(), placement, side, castling, enPassant, Decimal(halfmove), Decimal(fullmove));
    }

    /** A digit of a rank's description: that many squares become empty, up to the edge. */
    static method LoadEmpty(before: seq<char>, start: nat, count: nat, ghost read: seq<char>)
      returns (row: seq<char>, c: nat)
      requires Filled(before, start, read)
      ensures Filled(row, c, read + Dots(count))
    {
      row, c := before, start;
      assert read + Dots(0) == read;
      for n := 0 to count
        invariant Filled(row, c, read + Dots(n))
      {
        FilledMore(row, c, read + Dots(n), '.');
        assert read + Dots(n + 1) == read + Dots(n) + ['.'];
        if c < 8 {
          row := row[c := '.'];
          c := c + 1;
        }
      }
    }

    static method LoadRow(s: string) returns (row: seq<char>)
      ensures row == Fit(Expand(s))
    {
      row := Dots(8);
      var c := 0;
      for i := 0 to |s|
        invariant c >= 0 && Filled(row, c, Expand(s[..i]))
      {
        var ch := s[i];
        ExpandOneMore(s, i);
        if IsDigit(ch) {
          row, c := LoadEmpty(row, c, ValueOf(ch), Expand(s[..i]));
        } else {
          FilledMore(row, c, Expand(s[..i]), ch);
          if c < 8 {
            row := row[c := ch];
            c := c + 1;
          }
        }
      }
      assert s[..|s|] == s;
      FilledFits(row, c, Expand(s));
    }

    static method LoadPlacement(placement: string) returns (b: Board)
      ensures b == LoadedBoard(placement)
    {
      var rows := Split(placement, '/');
      var newBoard := seq(8, _ => Dots(8));
      for r := 0 to if |rows| < 8 then |rows| else 8
        invariant |newBoard| == 8
        invariant forall k :: 0 <= k < 8 ==> newBoard[k] == if k < r then LoadedRow(rows, k) else Dots(8)
      {
        var row := LoadRow(rows[r]);
        newBoard := newBoard[r := row];
      }
      b := newBoard;
      assert forall k :: 0 <= k < 8 ==> b[k] == LoadedBoard(placement)[k];
    }

    method Load(fen: string)
      modifies this
      ensures Now() == LoadOf(old(Now()), fen)
    {
      var parts := Split(fen, ' ');
      board := LoadPlacement(parts[0]);
      if |parts| > 1 { whiteToMove := parts[1] == "w"; }
      lastMoveFrom, lastMoveTo := None, None;
    }

    // ----------------------------------------------------------- operations

    method Move(f: Cell, t: Cell, ghost d: nat) returns (result: MoveResult)
      requires MoveTo(Now(), f, t, d).Some?
      modifies this
      ensures MoveTo(old(Now()), f, t, d) == Some((Now(), result))
    {
      if gameOver { return Failed; }
      var legal := IsLegal(f, t, d);
      if !legal { return Failed; }
      var piece := board[f.row][f.col];
      var isPromotion := (piece == 'P' || piece == 'p') && (t.row == 0 || t.row == 7);
      ExecuteMove(f, t);
      if isPromotion { return Promotion; }
      whiteToMove := !whiteToMove;
      CheckAndRecordGameOver(d);
      return Success;
    }

    method ApplyAIMove(f: Square, t: Square, ghost d: nat) returns (captured: Option<char>)
      requires EngineTo(Now(), f, t, d).Some?
      modifies this
      ensures EngineTo(old(Now()), f, t, d) == Some((Now(), captured))
    {
      if !f.OnBoard() || !t.OnBoard() { return None; }
      var legal := IsLegal(f, t, d);
      if !legal { return None; }
      captured := Some(board[t.row][t.col]);
      ExecuteMove(f, t);
      whiteToMove := !whiteToMove;
      CheckAndRecordGameOver(d);
    }

    method Promote(at: Cell, kind: char, ghost d: nat)
      requires PromoteTo(Now(), at, kind, d).Some?
      modifies this
      ensures PromoteTo(old(Now()), at, kind, d) == Some(Now())
    {
      var pawn := board[at.row][at.col];
      board := Put(board, at, if IsWhite(pawn) then ToUpper(kind) else ToLower(kind));
      whiteToMove := !whiteToMove;
      CheckAndRecordGameOver(d);
    }

    /** The board part of undo. */
    method PutPiecesBack(last: Record)
      modifies this`board
      ensures board == UnshiftRook(Put(Put(old(board), last.from, last.piece), last.to, last.captured), last)
    {
      board := Put(board, last.from, last.piece);
      board := Put(board, last.to, last.captured);
      if (last.piece == 'K' || last.piece == 'k') && Abs(last.to.col - last.from.col) == 2 {
        if last.to.col > last.from.col {
          board := Put(board, Square(last.from.row, 7), board[last.from.row][5]);
          board := Put(board, Square(last.from.row, 5), '.');
        } else {
          board := Put(board, Square(last.from.row, 0), board[last.from.row][3]);
          board := Put(board, Square(last.from.row, 3), '.');
        }
      }
    }

    /** The side to move afterwards, or None if there was nothing to undo. */
    method Undo() returns (white: Option<bool>)
      modifies this
      ensures UndoOf(old(Now())) == if white.None? then None else Some(Now())
      ensures white == if old(history) == [] then None else Some(whiteToMove)
      ensures white.None? ==> Now() == old(Now())
    {
      if history == [] { return None; }
      var last := history[|history| - 1];
      history := history[..|history| - 1];
      PutPiecesBack(last);
      enPassantTarget := last.ep;
      moved := last.moved;
      whiteToMove := IsWhite(last.piece);
      if history != [] {
        var prev := history[|history| - 1];
        lastMoveFrom, lastMoveTo := Some(prev.from), Some(prev.to);
      } else {
        lastMoveFrom, lastMoveTo := None, None;
      }
      gameOver := false;
      return Some(whiteToMove);
    }

    method UndoBoth()
      modifies this
      ensures Now() == UndoBothOf(old(Now()))
    {
      var white := Undo();
      if white == Some(false) { var _ := Undo(); }
    }

    method ConsumePendingGameResult() returns (result: Option<GameResult>)
      modifies this
      ensures result == old(pendingResult)
      ensures Now() == old(Now()).(pending := None)
    {
      result := pendingResult;
      pendingResult := None;
    }
  }
}
