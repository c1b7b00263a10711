/** The resolver's code: it reads the text piece by piece and tries every piece of the board. */
module SANResolver {
  import opened Squares
  import opened GameState
  import opened Text
  import opened Replay
  import opened San
  import opened ChessGameClass

  /** The last file letter and the last rank digit of the disambiguation. */
  method ReadHints(from: string) returns (file: Option<int>, rank: Option<int>)
    ensures file == FileHint(from) && rank == RankHint(from)
  {
    file, rank := None, None;
    for i := 0 to |from|
      invariant file == FileHint(from[..i]) && rank == RankHint(from[..i])
    {
      var ch := from[i];
      assert from[..i + 1][..i] == from[..i] && from[..i + 1][i] == ch;
      var index := FileIndex(ch);
      if index.Some? {
        file := index;
      } else if '1' <= ch <= '8' {
        rank := Some(8 - ValueOf(ch));
      }
    }
    assert from[..|from|] == from;
  }

  method ParseSan(san: string) returns (r: Request)
    ensures r == Parse(san)
  {
    var s := WithoutMarks(Trim(san));
    if s == "" { return Nothing; }
    if s == "O-O" || s == "0-0" { return Castle(true); }
    if s == "O-O-O" || s == "0-0-0" { return Castle(false); }
    var (head, tail) := CutAt(s, '=');
    var promotion := if tail.Some? && tail.value != "" then Some(ToUpper(tail.value[0])) else None;
    var core := Without(head, 'x');
    if |core| < 2 { return Nothing; }
    var dest := NamedSquare(core[|core| - 2..]);
    if dest.None? { return Nothing; }
    var prefix := core[..|core| - 2];
    var letter, from := 'P', prefix;
    if prefix != "" && prefix[0] in "KQRBN" { letter, from := prefix[0], prefix[1..]; }
    var file, rank := ReadHints(from);
    return San.Move(letter, file, rank, dest.value, promotion);
  }

  method ResolveCastle(kingside: bool, game: ChessGame) returns (result: Option<(Cell, Cell, Option<char>)>)
    ensures var from := HomeOf(game.whiteToMove);
      result == if At(game.board, from) == KingOf(game.whiteToMove) then
        Some((from, Square(from.row, if kingside then 6 else 2), None)) else None
  {
    var backRank := if game.whiteToMove then 7 else 0;
    var king := if game.whiteToMove then 'K' else 'k';
    if game.board[backRank][4] != king { return None; }
    return Some((Square(backRank, 4), Square(backRank, if kingside then 6 else 2), None));
  }

  method ResolveMove(r: Request, game: ChessGame, ghost d: nat) returns (matches: seq<Cell>)
    requires r.Move? && Settles(game.Now(), r, d)
    modifies game`board
    ensures game.Now() == old(game.Now())
    ensures forall s: Cell :: s in matches <==> Fits(game.Now(), r, d, s)
    ensures forall i, j :: 0 <= i < j < |matches| ==> matches[i] != matches[j]
  {
    ghost var st := game.Now();
    var wanted := Wanted(game.whiteToMove, r.letter);
    matches := [];
    for row := 0 to 8
      invariant game.Now() == st
      invariant forall s: Cell :: s in matches <==> s.row < row && Fits(st, r, d, s)
      invariant forall i, j :: 0 <= i < j < |matches| ==> matches[i] != matches[j]
    {
      for col := 0 to 8
        invariant game.Now() == st
        invariant forall s: Cell :: s in matches <==> (s.row < row || (s.row == row && s.col < col)) && Fits(st, r, d, s)
        invariant forall i, j :: 0 <= i < j < |matches| ==> matches[i] != matches[j]
      {
        var from: Cell := Square(row, col);
        ghost var fits := Fits(st, r, d, from);
        if game.board[row][col] == wanted
          && (r.file.None? || r.file.value == col) && (r.rank.None? || r.rank.value == row) && from != r.dest
        {
          assert Candidate(st, r, from);
          var legal := game.IsLegal(from, r.dest, d);
          assert legal <==> fits;
          if legal { matches := matches + [from]; }
        } else {
          assert !fits;
        }
      }
    }
  }

  method Resolve(san: string, game: ChessGame, ghost d: nat) returns (result: Option<(Cell, Cell, Option<char>)>)
    requires Settles(game.Now(), Parse(san), d)
    modifies game`board
    ensures game.Now() == old(game.Now())
    ensures result == Resolved(game.Now(), san, d)
    ensures var r := Parse(san);
      r.Move? ==>
        && (forall f: Cell, t: Cell, p: Option<char> ::
              result == Some((f, t, p)) <==> t == r.dest && p == r.promotion && FitsAlone(game.Now(), r, d, f))
        && (result.None? <==> !exists f: Cell :: FitsAlone(game.Now(), r, d, f))
  {
    var r := ParseSan(san);
    if r.Nothing? { return None; }
    if r.Castle? {
      result := ResolveCastle(r.kingside, game);
      return;
    }
    var matches := ResolveMove(r, game, d);
    if |matches| != 1 {
      if |matches| > 1 { assert matches[0] in matches && matches[1] in matches && matches[0] != matches[1]; }
      return None;
    }
    assert FitsAlone(game.Now(), r, d, matches[0]);
    return Some((matches[0], r.dest, r.promotion));
  }
}
