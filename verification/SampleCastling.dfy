/** The sample game played on: White castles with the rook that replaced the one taken on h1. */
module SampleCastling {
  import opened Squares
  import opened Rules
  import opened Settling
  import opened GameState
  import opened Positions
  import opened Runs
  import opened Games
  import opened Chess
  import opened Depth
  import opened CalmPositions
  import opened SampleGame
  import opened SampleRuns

  // 6... h7-h6  7. Ng1-f3 h6-h5  8. Bf1-g2 h5-h4  9. O-O

  const AFTER_12: Board := [
    "rnbqkbnr", "pppppp..", ".......p", "P.......",
    "........", "........", ".PPPPP..", ".NBQKBNR"]

  const AFTER_13: Board := [
    "rnbqkbnr", "pppppp..", ".......p", "P.......",
    "........", ".....N..", ".PPPPP..", ".NBQKB.R"]

  const AFTER_14: Board := [
    "rnbqkbnr", "pppppp..", "........", "P......p",
    "........", ".....N..", ".PPPPP..", ".NBQKB.R"]

  const AFTER_15: Board := [
    "rnbqkbnr", "pppppp..", "........", "P......p",
    "........", ".....N..", ".PPPPPB.", ".NBQK..R"]

  const AFTER_16: Board := [
    "rnbqkbnr", "pppppp..", "........", "P.......",
    ".......p", ".....N..", ".PPPPPB.", ".NBQK..R"]

  lemma Board12()
    ensures At(AFTER_11, Square(1, 7)) == 'p'
    ensures ExecutedBoard(AFTER_11, Square(1, 7), Square(2, 7)) == AFTER_12
  {
    var f: Cell, t: Cell := Square(1, 7), Square(2, 7);
    assert At(AFTER_11, f) == 'p';
    assert ExecutedBoard(AFTER_11, f, t) == Put(Put(AFTER_11, t, 'p'), f, '.');
    assert "........"[7 := 'p'] == ".......p";
    assert "pppppp.p"[7 := '.'] == "pppppp..";
  }

  lemma Board13()
    ensures At(AFTER_12, Square(7, 6)) == 'N'
    ensures ExecutedBoard(AFTER_12, Square(7, 6), Square(5, 5)) == AFTER_13
  {
    var f: Cell, t: Cell := Square(7, 6), Square(5, 5);
    assert At(AFTER_12, f) == 'N';
    assert ExecutedBoard(AFTER_12, f, t) == Put(Put(AFTER_12, t, 'N'), f, '.');
    assert "........"[5 := 'N'] == ".....N..";
    assert ".NBQKBNR"[6 := '.'] == ".NBQKB.R";
  }

  lemma Board14()
    ensures At(AFTER_13, Square(2, 7)) == 'p'
    ensures ExecutedBoard(AFTER_13, Square(2, 7), Square(3, 7)) == AFTER_14
  {
    var f: Cell, t: Cell := Square(2, 7), Square(3, 7);
    assert At(AFTER_13, f) == 'p';
    assert ExecutedBoard(AFTER_13, f, t) == Put(Put(AFTER_13, t, 'p'), f, '.');
    assert "P......."[7 := 'p'] == "P......p";
    assert ".......p"[7 := '.'] == "........";
  }

  lemma Board15()
    ensures At(AFTER_14, Square(7, 5)) == 'B'
    ensures ExecutedBoard(AFTER_14, Square(7, 5), Square(6, 6)) == AFTER_15
  {
    var f: Cell, t: Cell := Square(7, 5), Square(6, 6);
    assert At(AFTER_14, f) == 'B';
    assert ExecutedBoard(AFTER_14, f, t) == Put(Put(AFTER_14, t, 'B'), f, '.');
    assert ".PPPPP.."[6 := 'B'] == ".PPPPPB.";
    assert ".NBQKB.R"[5 := '.'] == ".NBQK..R";
  }

  lemma Board16()
    ensures At(AFTER_15, Square(3, 7)) == 'p'
    ensures ExecutedBoard(AFTER_15, Square(3, 7), Square(4, 7)) == AFTER_16
  {
    var f: Cell, t: Cell := Square(3, 7), Square(4, 7);
    assert At(AFTER_15, f) == 'p';
    assert ExecutedBoard(AFTER_15, f, t) == Put(Put(AFTER_15, t, 'p'), f, '.');
    assert "........"[7 := 'p'] == ".......p";
    assert "P......p"[7 := '.'] == "P.......";
  }

  /** The run stands at this board; king and h-rook have not moved, but a rook was taken on h1. */
  ghost predicate RookReplaced(plies: seq<Ply>, st: State, b: Board, white: bool, d: nat) {
    && Run(plies, d) == Some(st) && st.l.board == b && st.whiteToMove == white && !st.gameOver
    && !st.l.moved.wK && !st.l.moved.wH && CapturedOn(st.history, Square(7, 7))
  }

  /** A move of the human, of either side, that goes as played. */
  lemma RookStaysReplaced(plies: seq<Ply>, st: State, b: Board, white: bool, f: Cell, t: Cell, d: nat)
    requires RookReplaced(plies, st, b, white, d) && MoveTo(st, f, t, d) == Some((Next(st, f, t), Success))
    requires At(b, f) != 'K' && !(At(b, f) == 'R' && f == Square(7, 7))
    ensures RookReplaced(plies + [Human(f, t, 'q')], Next(st, f, t), ExecutedBoard(b, f, t), !white, d)
  {
    assert (plies + [Human(f, t, 'q')])[..|plies|] == plies;
    StillCaptured(st.history, Next(st, f, t).history[|st.history|], Square(7, 7));
  }

  /** While the position is calm. */
  lemma CalmlyOn(plies: seq<Ply>, st: State, b: Board, white: bool, f: Cell, t: Cell, d: nat)
    requires RookReplaced(plies, st, b, white, d) && Quiet(st, f, t) && d >= 2
    requires !(IsPawn(At(b, f)) && LastRank(t)) && At(b, f) != 'R'
    ensures RookReplaced(plies + [Human(f, t, 'q')], Next(st, f, t), ExecutedBoard(b, f, t), !white, d)
    ensures Calm(ExecutedBoard(b, f, t))
  {
    QuietMove(st, f, t, d);
    RookStaysReplaced(plies, st, b, white, f, t, d);
  }

  lemma Ply12(plies: seq<Ply>, st: State, d: nat)
    requires RookReplaced(plies, st, AFTER_11, false, d) && Calm(AFTER_11) && d >= 2
    ensures RookReplaced(plies + [Human(Square(1, 7), Square(2, 7), 'q')], Next(st, Square(1, 7), Square(2, 7)), AFTER_12, true, d)
    ensures Calm(AFTER_12)
  {
    Board12();
    CalmlyOn(plies, st, AFTER_11, false, Square(1, 7), Square(2, 7), d);
  }

  lemma Ply13(plies: seq<Ply>, st: State, d: nat)
    requires RookReplaced(plies, st, AFTER_12, true, d) && Calm(AFTER_12) && d >= 2
    ensures RookReplaced(plies + [Human(Square(7, 6), Square(5, 5), 'q')], Next(st, Square(7, 6), Square(5, 5)), AFTER_13, false, d)
    ensures Calm(AFTER_13)
  {
    Board13();
    CalmlyOn(plies, st, AFTER_12, true, Square(7, 6), Square(5, 5), d);
  }

  lemma Ply14(plies: seq<Ply>, st: State, d: nat)
    requires RookReplaced(plies, st, AFTER_13, false, d) && Calm(AFTER_13) && d >= 2
    ensures RookReplaced(plies + [Human(Square(2, 7), Square(3, 7), 'q')], Next(st, Square(2, 7), Square(3, 7)), AFTER_14, true, d)
    ensures Calm(AFTER_14)
  {
    Board14();
    CalmlyOn(plies, st, AFTER_13, false, Square(2, 7), Square(3, 7), d);
  }

  lemma FourteenPlies(d: nat) returns (plies: seq<Ply>, st: State)
    requires d >= 2
    ensures RookReplaced(plies, st, AFTER_14, true, d) && |plies| == 14 && Calm(AFTER_14)
  {
    plies, st := ElevenPlies(d);
    Ply12(plies, st, d);
    plies, st := plies + [Human(Square(1, 7), Square(2, 7), 'q')], Next(st, Square(1, 7), Square(2, 7));
    Ply13(plies, st, d);
    plies, st := plies + [Human(Square(7, 6), Square(5, 5), 'q')], Next(st, Square(7, 6), Square(5, 5));
    Ply14(plies, st, d);
    plies, st := plies + [Human(Square(2, 7), Square(3, 7), 'q')], Next(st, Square(2, 7), Square(3, 7));
  }

  // --------------------------------------------------- out of the shelter

  /** Black's pieces are on their first two rows, but for a pawn further down the h-file. */
  ghost predicate Distant(b: Board) {
    forall s: Cell :: Holds(b, s, false) ==> s.row <= 1 || (s.col == 7 && 3 <= s.row <= 4 && At(b, s) == 'p')
  }

  /** White's king stands at home, and the squares ahead of it and before f1 are not empty. */
  ghost predicate HomeSafe(b: Board) {
    && (forall s: Cell :: At(b, s) == 'K' <==> s == HomeOf(true))
    && Distant(b) && At(b, Square(6, 4)) != '.' && At(b, Square(6, 5)) != '.'
  }

  /** From so far away nothing attacks a square of White's first rank behind a piece. */
  lemma DistantAttacksNot(l: Layout, s: Cell, t: Cell)
    requires Distant(l.board) && Holds(l.board, s, false) && t.row == 7 && 4 <= t.col <= 6
    requires At(l.board, Square(6, t.col)) != '.' && At(l.board, Square(6, 5)) != '.'
    ensures !Attacks(l, At(l.board, s), s, t)
  {
    if s.row <= 1 && s.col == t.col {
      assert Between(s, Square(6, t.col), t);
    } else if s.row <= 1 && Diagonal(s, t) {
      assert Between(s, Square(6, 5), t);
    }
  }

  lemma NothingAttacks(l: Layout, t: Cell)
    requires Distant(l.board) && t.row == 7 && 4 <= t.col <= 6
    requires At(l.board, Square(6, t.col)) != '.' && At(l.board, Square(6, 5)) != '.'
    ensures !AttackedBy(l, t, false)
  {
    forall s: Cell | Holds(l.board, s, false)
      ensures !Attacks(l, At(l.board, s), s, t)
    {
      DistantAttacksNot(l, s, t);
    }
  }

  lemma HomeIsSafe(l: Layout)
    requires HomeSafe(l.board)
    ensures KingCell(l.board, true) == Some(HomeOf(true)) && !Checked(l, true)
  {
    KingCellIs(l.board, true, HomeOf(true));
    NothingAttacks(l, HomeOf(true));
  }

  lemma HomeStaysSafe(b: Board, c: Cell, p: char)
    requires HomeSafe(b) && c != HomeOf(true) && p != 'K' && c != Square(6, 4) && c != Square(6, 5)
    requires p == '.' || IsWhite(p) || (p == 'p' && c == Square(4, 7))
    ensures HomeSafe(Put(b, c, p))
  {
  }

  /** White is not stuck there either: its c-pawn steps. */
  lemma HomeSafeHasMove(st: State)
    requires st.whiteToMove && HomeSafe(st.l.board) && Spare(st.l.board, true)
    ensures !Stuck(st)
  {
    var f: Cell, t: Cell := Square(6, 2), Square(5, 2);
    HomeStaysSafe(st.l.board, t, 'P');
    HomeStaysSafe(Put(st.l.board, t, 'P'), f, '.');
    HomeIsSafe(TryMove(st.l, f, t));
    assert Legal(st.l, true, f, t);
  }

  /** Both sides have a safe king and a spare pawn. */
  ghost predicate Roomy(b: Board) {
    HomeSafe(b) && Sheltered(b, false) && Spare(b, true) && Spare(b, false)
  }

  lemma RoomyIsApart(l: Layout)
    requires Roomy(l.board)
    ensures RanksApart(l.board)
  {
  }

  lemma RoomyHasMove(st: State)
    requires Roomy(st.l.board)
    ensures !Stuck(st)
  {
    if st.whiteToMove { HomeSafeHasMove(st); } else { ShelteredHasMove(st, false); }
  }

  lemma RoomyMove(plies: seq<Ply>, st: State, b: Board, white: bool, f: Cell, t: Cell, d: nat)
    requires RookReplaced(plies, st, b, white, d) && Roomy(b) && Roomy(ExecutedBoard(b, f, t)) && d >= 2
    requires Legal(st.l, white, f, t) && !IsKing(At(b, f)) && !(IsPawn(At(b, f)) && LastRank(t)) && At(b, f) != 'R'
    ensures RookReplaced(plies + [Human(f, t, 'q')], Next(st, f, t), ExecutedBoard(b, f, t), !white, d)
  {
    RunsAreReached(plies, d);
    RoomyIsApart(st.l);
    RoomyHasMove(Next(st, f, t));
    LegalIsPlayed(st, f, t, d);
    RookStaysReplaced(plies, st, b, white, f, t, d);
  }

  lemma Distant14(b: Board)
    requires b == AFTER_14
    ensures Distant(b)
  {
    assert At(b, Square(3, 7)) == 'p';
    forall s: Cell | s.row > 1 && s != Square(3, 7)
      ensures !Holds(b, s, false)
    {
      if s.row == 3 { assert At(b, s) == "P......p"[s.col]; }
      if s.row == 5 { assert At(b, s) == ".....N.."[s.col]; }
      if s.row == 6 { assert At(b, s) == ".PPPPP.."[s.col]; }
      if s.row == 7 { assert At(b, s) == ".NBQKB.R"[s.col]; }
    }
  }

  lemma Roomy14(b: Board)
    requires b == AFTER_14 && Calm(b)
    ensures Roomy(b)
  {
    Distant14(b);
    assert Holds(b, Square(6, 4), true) && Holds(b, Square(6, 5), true);
  }

  lemma Roomy15(b: Board)
    requires b == AFTER_14 && Roomy(b)
    ensures ExecutedBoard(b, Square(7, 5), Square(6, 6)) == AFTER_15 == Trial(b, Square(7, 5), Square(6, 6))
    ensures Roomy(AFTER_15)
  {
    var f: Cell, t: Cell := Square(7, 5), Square(6, 6);
    Board15();
    HomeStaysSafe(b, t, 'B');
    HomeStaysSafe(Put(b, t, 'B'), f, '.');
    ShelterStands(b, false, t, 'B');
    ShelterStands(Put(b, t, 'B'), false, f, '.');
  }

  lemma Roomy16(b: Board)
    requires b == AFTER_15 && Roomy(b)
    ensures ExecutedBoard(b, Square(3, 7), Square(4, 7)) == AFTER_16 == Trial(b, Square(3, 7), Square(4, 7))
    ensures Roomy(AFTER_16)
  {
    var f: Cell, t: Cell := Square(3, 7), Square(4, 7);
    Board16();
    HomeStaysSafe(b, t, 'p');
    HomeStaysSafe(Put(b, t, 'p'), f, '.');
    ShelterStands(b, false, t, 'p');
    ShelterStands(Put(b, t, 'p'), false, f, '.');
  }

  lemma BishopSteps(l: Layout)
    requires l.board == AFTER_14 && Roomy(AFTER_14)
    ensures Legal(l, true, Square(7, 5), Square(6, 6))
  {
    Board15();
    Roomy15(l.board);
    HomeIsSafe(TryMove(l, Square(7, 5), Square(6, 6)));
  }

  lemma PawnSteps(l: Layout)
    requires l.board == AFTER_15 && Roomy(AFTER_15)
    ensures Legal(l, false, Square(3, 7), Square(4, 7))
  {
    Board16();
    Roomy16(l.board);
    ShelteredKing(TryMove(l, Square(3, 7), Square(4, 7)), false);
  }

  lemma Ply15(plies: seq<Ply>, st: State, d: nat)
    requires RookReplaced(plies, st, AFTER_14, true, d) && Roomy(AFTER_14) && d >= 2
    ensures RookReplaced(plies + [Human(Square(7, 5), Square(6, 6), 'q')], Next(st, Square(7, 5), Square(6, 6)), AFTER_15, false, d)
    ensures Roomy(AFTER_15)
  {
    Board15();
    Roomy15(AFTER_14);
    BishopSteps(st.l);
    RoomyMove(plies, st, AFTER_14, true, Square(7, 5), Square(6, 6), d);
  }

  lemma Ply16(plies: seq<Ply>, st: State, d: nat)
    requires RookReplaced(plies, st, AFTER_15, false, d) && Roomy(AFTER_15) && d >= 2
    ensures RookReplaced(plies + [Human(Square(3, 7), Square(4, 7), 'q')], Next(st, Square(3, 7), Square(4, 7)), AFTER_16, true, d)
    ensures Roomy(AFTER_16)
  {
    Board16();
    Roomy16(AFTER_15);
    PawnSteps(st.l);
    RoomyMove(plies, st, AFTER_15, false, Square(3, 7), Square(4, 7), d);
  }

  lemma SixteenPlies(d: nat) returns (plies: seq<Ply>, st: State)
    requires d >= 2
    ensures RookReplaced(plies, st, AFTER_16, true, d) && |plies| == 16 && Roomy(AFTER_16)
  {
    plies, st := FourteenPlies(d);
    Roomy14(AFTER_14);
    Ply15(plies, st, d);
    plies, st := plies + [Human(Square(7, 5), Square(6, 6), 'q')], Next(st, Square(7, 5), Square(6, 6));
    Ply16(plies, st, d);
    plies, st := plies + [Human(Square(3, 7), Square(4, 7), 'q')], Next(st, Square(3, 7), Square(4, 7));
  }

  // ----------------------------------------------------------------- castling

  /** Between king and rook the first rank is empty, and the square before g1 is not. */
  predicate Cleared(b: Board) {
    && At(b, Square(7, 5)) == '.' && At(b, Square(7, 6)) == '.' && At(b, Square(7, 7)) == 'R'
    && At(b, Square(6, 6)) != '.'
  }

  lemma MayCastleNow(l: Layout, f: Cell, t: Cell)
    requires HomeSafe(l.board) && Cleared(l.board) && !l.moved.wK && !l.moved.wH
    requires f == Square(7, 4) && t == Square(7, 6)
    ensures CastlingShape(l.board, f, t) && MayCastle(l, true, f, t)
  {
    HomeIsSafe(l);
    NothingAttacks(l, PassedOver(f, t));
  }

  lemma CastledIsSafe(l: Layout, f: Cell, t: Cell)
    requires HomeSafe(l.board) && Cleared(l.board) && f == Square(7, 4) && t == Square(7, 6)
    ensures !Checked(TryMove(l, f, t), true)
  {
    TrialCells(l.board, f, t);
    KingCellIs(TryMove(l, f, t).board, true, t);
    NothingAttacks(TryMove(l, f, t), t);
  }

  lemma CastledShelter(b: Board, f: Cell, t: Cell)
    requires Roomy(b) && Cleared(b) && f == Square(7, 4) && t == Square(7, 6)
    ensures Sheltered(ExecutedBoard(b, f, t), false) && Spare(ExecutedBoard(b, f, t), false)
  {
    assert ExecutedBoard(b, f, t) == Put(Put(Put(Put(b, Square(7, 5), 'R'), Square(7, 7), '.'), t, 'K'), f, '.');
  }

  lemma CastlesNow(st: State, f: Cell, t: Cell, d: nat)
    requires Sound(st.l, true) && st.whiteToMove && !st.gameOver && Roomy(st.l.board) && Cleared(st.l.board)
    requires !st.l.moved.wK && !st.l.moved.wH && f == Square(7, 4) && t == Square(7, 6) && d >= 2
    ensures CastlingShape(st.l.board, f, t) && Legal(st.l, true, f, t)
    ensures MoveTo(st, f, t, d) == Some((Next(st, f, t), Success))
  {
    MayCastleNow(st.l, f, t);
    CastledIsSafe(st.l, f, t);
    RoomyIsApart(st.l);
    CastledShelter(st.l.board, f, t);
    ShelteredHasMove(Next(st, f, t), false);
    LegalIsPlayed(st, f, t, d);
  }

  lemma Cleared16(b: Board)
    requires b == AFTER_16
    ensures Cleared(b)
  {
  }

  /**
    After these sixteen half-moves the game castles with the rook that came from a1: the rook of
    h1 was taken there, and chess forbids the move. Nothing else stands in its way.
   */
  lemma CastlesWithAnotherRook(d: nat) returns (plies: seq<Ply>, st: State)
    requires d >= 2
    ensures Run(plies, d) == Some(st) && |plies| == 16 && st.whiteToMove && CapturedOn(st.history, Square(7, 7))
    ensures MoveTo(st, Square(7, 4), Square(7, 6), d) == Some((Next(st, Square(7, 4), Square(7, 6)), Success))
    ensures Legal(st.l, true, Square(7, 4), Square(7, 6))
    ensures !ChessLegal(st.l.board, st.history, true, Square(7, 4), Square(7, 6))
    ensures At(st.l.board, Square(7, 7)) == 'R' && !PawnBeside(st.l.board, true, Square(7, 5))
  {
    var f: Cell, t: Cell := Square(7, 4), Square(7, 6);
    plies, st := SixteenPlies(d);
    RunsAreReached(plies, d);
    Cleared16(st.l.board);
    CastlesNow(st, f, t, d);
    CastlingVersusChess(st.l, st.history, true, f, t);
    assert Distant(st.l.board);
  }
}
