/** The bridge's code: the Position class, which makes and unmakes moves on its own board, and the search. */
module EngineMoveBridge {
  import opened Squares
  import opened Rules
  import opened Text
  import opened Fen
  import opened Bridge

  class Position {
    var board: Board
    const whiteToMove: bool
    const enPassant: Option<Cell>

    function Now(): Probe
      reads this
    {
      Probe(board, whiteToMove, enPassant)
    }

    constructor (q: Probe)
      ensures Now() == q
    {
      board, whiteToMove, enPassant := q.board, q.whiteToMove, q.enPassant;
    }

    /** One rank of the placement field, or None if it does not come out at eight squares. */
    static method ParseRow(s: string) returns (row: Option<seq<char>>)
      ensures row == if |Expand(s)| == 8 then Some(Expand(s)) else None
    {
      var b := Dots(8);
      var c := 0;
      for i := 0 to |s|
        invariant |b| == 8 && c == |Expand(s[..i])|
        invariant forall k :: 0 <= k < 8 ==> b[k] == if k < c then Expand(s[..i])[k] else '.'
      {
        var ch := s[i];
        ExpandOneMore(s, i);
        if IsDigit(ch) {
          c := c + ValueOf(ch);
        } else {
          if c > 7 {
            ExpandLonger(s, i + 1);
            return None;
          }
          b := b[c := ch];
          c := c + 1;
        }
      }
      assert s[..|s|] == s;
      if c != 8 { return None; }
      assert b == Expand(s);
      return Some(b);
    }

    static method Parse(fen: string) returns (p: Position?)
      ensures p == null <==> ParseOf(fen).None?
      ensures p != null ==> fresh(p) && ParseOf(fen) == Some(p.Now())
    {
      var parts := Split(Trim(fen), ' ');
      var rows := Split(parts[0], '/');
      if |rows| != 8 { return null; }
      var b: seq<seq<char>> := [];
      for r := 0 to 8
        invariant |b| == r
        invariant forall k :: 0 <= k < r ==> |Expand(rows[k])| == 8 && b[k] == Expand(rows[k])
      {
        var row := ParseRow(rows[r]);
        if row.None? { return null; }
        b := b + [row.value];
      }
      var white := if |parts| > 1 then Lowered(parts[1]) == "w" else false;
      var ep := if |parts| > 3 then SquareOf(parts[3]) else None;
      assert b == seq(8, r requires 0 <= r < 8 => Expand(rows[r]));
      p := new Position(Probe(b, white, ep));
    }

    method IsPathClear(f: Cell, t: Cell) returns (clear: bool)
      requires OnLine(f, t)
      ensures clear <==> PathClear(board, f, t)
    {
      var dr := if t.row - f.row < -1 then -1 else if t.row - f.row > 1 then 1 else t.row - f.row;
      var dc := if t.col - f.col < -1 then -1 else if t.col - f.col > 1 then 1 else t.col - f.col;
      var r, c := f.row + dr, f.col + dc;
      while r != t.row || c != t.col
        invariant Square(r, c).OnBoard()
        invariant f != t ==> Square(r, c) == t || Between(f, Square(r, c), t)
        invariant f == t ==> Square(r, c) == t
        invariant forall s: Cell :: Between(f, s, t) && Between(f, s, Square(r, c)) ==> At(board, s) == '.'
        decreases Abs(t.row - r) + Abs(t.col - c)
      {
        var here: Cell := Square(r, c);
        if board[r][c] != '.' {
          assert At(board, here) != '.';
          return false;
        }
        assert At(board, here) == '.';
        r, c := r + dr, c + dc;
        assert forall s: Cell :: Between(f, s, Square(r, c)) ==> Between(f, s, here) || s == here;
      }
      return true;
    }

    method IsPawnGeometry(p: char, f: Cell, t: Cell) returns (b: bool)
      ensures b <==> PawnShape(Now(), p, f, t)
    {
      var target := board[t.row][t.col];
      var dc := Abs(t.col - f.col);
      var dir := if IsWhite(p) then -1 else 1;
      var startRow := if IsWhite(p) then 6 else 1;
      if f.col == t.col && t.row == f.row + dir && target == '.' { return true; }
      if f.col == t.col && f.row == startRow && t.row == f.row + 2 * dir && target == '.'
        && board[f.row + dir][f.col] == '.' { return true; }
      if dc == 1 && t.row == f.row + dir && target != '.' && IsWhite(target) != IsWhite(p) { return true; }
      if dc == 1 && t.row == f.row + dir && target == '.' && enPassant == Some(t) { return true; }
      return false;
    }

    method IsLegalGeometry(p: char, f: Cell, t: Cell, allowCastle: bool) returns (b: bool)
      ensures b <==> Shape(Now(), p, f, t, allowCastle)
    {
      if f.row == t.row && f.col == t.col { return false; }
      var target := board[t.row][t.col];
      if target != '.' && IsWhite(target) == IsWhite(p) { return false; }
      var dr, dc := Abs(t.row - f.row), Abs(t.col - f.col);
      match p
      case 'P' | 'p' => b := IsPawnGeometry(p, f, t);
      case 'R' | 'r' =>
        b := f.row == t.row || f.col == t.col;
        if b { b := IsPathClear(f, t); }
      case 'N' | 'n' => b := (dr == 2 && dc == 1) || (dr == 1 && dc == 2);
      case 'B' | 'b' =>
        b := dr == dc;
        if b { b := IsPathClear(f, t); }
      case 'Q' | 'q' =>
        b := dr == dc || f.row == t.row || f.col == t.col;
        if b { b := IsPathClear(f, t); }
      case 'K' | 'k' =>
        b := dr <= 1 && dc <= 1;
        if !b && allowCastle && dr == 0 && dc == 2 { b := IsCastleShape(p, f, t); }
      case _ => b := false;
    }

    method IsCastleShape(king: char, f: Cell, t: Cell) returns (b: bool)
      ensures b <==> CastleShape(board, king, f, t)
    {
      var rook := if IsWhite(king) then 'R' else 'r';
      var rookCol := if t.col > f.col then 7 else 0;
      if board[f.row][rookCol] != rook { return false; }
      b := IsPathClear(f, Square(f.row, rookCol));
    }

    method IsInCheck(white: bool) returns (b: bool)
      ensures b <==> ProbeInCheck(Now(), white)
    {
      var king := if white then 'K' else 'k';
      var kr, kc := -1, -1;
      ghost var at := KingCell(board, white);
      for r := 0 to 8
        invariant if kr == -1 then at.Some? ==> r <= at.value.row else at == Some(Square(kr, kc))
      {
        for c := 0 to 8
          invariant kr == -1 ==> at.Some? ==> r < at.value.row || (r == at.value.row && c <= at.value.col)
          invariant kr != -1 ==> at == Some(Square(kr, kc))
        {
          if board[r][c] == king {
            kr, kc := r, c;
            assert At(board, Square(r, c)) == king;
            break;
          }
        }
        if kr != -1 { break; }
      }
      if kr == -1 { return false; }
      b := IsSquareAttacked(Square(kr, kc), !white);
    }

    method IsSquareAttacked(target: Cell, byWhite: bool) returns (b: bool)
      ensures b <==> ProbeAttacked(Now(), target, byWhite)
    {
      ghost var q := Now();
      for r := 0 to 8
        invariant forall s: Cell :: s.row < r && Holds(q.board, s, byWhite) ==> !Shape(q, At(q.board, s), s, target, false)
      {
        for c := 0 to 8
          invariant forall s: Cell :: (s.row < r || (s.row == r && s.col < c)) && Holds(q.board, s, byWhite) ==>
            !Shape(q, At(q.board, s), s, target, false)
        {
          var p := board[r][c];
          ghost var here: Cell := Square(r, c);
          assert At(q.board, here) == p;
          if p != '.' && IsWhite(p) == byWhite {
            var reaches := IsLegalGeometry(p, Square(r, c), target, false);
            if reaches {
              assert Holds(q.board, here, byWhite);
              return true;
            }
          }
        }
      }
      return false;
    }

    method IsLegal(m: AIMove) returns (b: bool)
      modifies this`board
      ensures board == old(board)
      ensures b <==> Accepts(Now(), m)
    {
      if !m.IsValid() { return false; }
      if !(0 <= m.fromX <= 7 && 0 <= m.fromY <= 7 && 0 <= m.toX <= 7 && 0 <= m.toY <= 7) { return false; }
      var f: Cell, t: Cell := Square(m.fromX, m.fromY), Square(m.toX, m.toY);
      var piece := board[f.row][f.col];
      if piece == '.' || IsWhite(piece) != whiteToMove { return false; }
      var shaped := IsLegalGeometry(piece, f, t, true);
      if !shaped { return false; }
      ghost var before := board;
      var target := board[t.row][t.col];
      board := Put(board, t, piece);
      board := Put(board, f, '.');
      var leavesKingInCheck := IsInCheck(IsWhite(piece));
      board := Put(board, f, piece);
      board := Put(board, t, target);
      SameCells(board, before);
      return !leavesKingInCheck;
    }
  }

  /** The first legal of the eight images, the move itself tried first. */
  method Normalize(m: AIMove, fen: string) returns (result: Option<AIMove>)
    ensures result == NormalizeOf(m, fen)
  {
    var position := Position.Parse(fen);
    if position == null { return if m.IsValid() then Some(m) else None; }
    if !m.IsValid() { return None; }
    ghost var q := position.Now();
    for s := 0 to 2
      invariant position.Now() == q
      invariant forall h: Symmetry :: Order(h) < 4 * s ==> !Accepts(q, Image(h, m))
    {
      for r := 0 to 2
        invariant position.Now() == q
        invariant forall h: Symmetry :: Order(h) < 4 * s + 2 * r ==> !Accepts(q, Image(h, m))
      {
        for c := 0 to 2
          invariant position.Now() == q
          invariant forall h: Symmetry :: Order(h) < 4 * s + 2 * r + c ==> !Accepts(q, Image(h, m))
        {
          var g := Symmetry(s == 1, r == 1, c == 1);
          var candidate := Image(g, m);
          var legal := position.IsLegal(candidate);
          if legal {
            FirstIsNormal(q, m, g);
            return Some(candidate);
          }
          assert forall h: Symmetry :: Order(h) == Order(g) ==> h == g;
        }
      }
    }
    return None;
  }
}
