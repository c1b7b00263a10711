/** A game played through from the start: a black pawn reaches h1, and the rook of a1 comes to stand there. */
module SampleGame {
  import opened Squares
  import opened Rules
  import opened GameState
  import opened CalmPositions

  // 1. h2-h4 g7-g5  2. a2-a4 g5xh4  3. Ra1-a3 h4-h3  4. a4-a5 h3xg2  5. Ra3-h3 g2xh1  6. Rh3xh1

  const AFTER_1: Board := [
    "rnbqkbnr", "pppppppp", "........", "........",
    ".......P", "........", "PPPPPPP.", "RNBQKBNR"]

  const AFTER_2: Board := [
    "rnbqkbnr", "pppppp.p", "........", "......p.",
    ".......P", "........", "PPPPPPP.", "RNBQKBNR"]

  const AFTER_3: Board := [
    "rnbqkbnr", "pppppp.p", "........", "......p.",
    "P......P", "........", ".PPPPPP.", "RNBQKBNR"]

  const AFTER_4: Board := [
    "rnbqkbnr", "pppppp.p", "........", "........",
    "P......p", "........", ".PPPPPP.", "RNBQKBNR"]

  const AFTER_5: Board := [
    "rnbqkbnr", "pppppp.p", "........", "........",
    "P......p", "R.......", ".PPPPPP.", ".NBQKBNR"]

  const AFTER_6: Board := [
    "rnbqkbnr", "pppppp.p", "........", "........",
    "P.......", "R......p", ".PPPPPP.", ".NBQKBNR"]

  const AFTER_7: Board := [
    "rnbqkbnr", "pppppp.p", "........", "P.......",
    "........", "R......p", ".PPPPPP.", ".NBQKBNR"]

  const AFTER_8: Board := [
    "rnbqkbnr", "pppppp.p", "........", "P.......",
    "........", "R.......", ".PPPPPp.", ".NBQKBNR"]

  const AFTER_9: Board := [
    "rnbqkbnr", "pppppp.p", "........", "P.......",
    "........", ".......R", ".PPPPPp.", ".NBQKBNR"]

  const AFTER_10: Board := [
    "rnbqkbnr", "pppppp.p", "........", "P.......",
    "........", ".......R", ".PPPPP..", ".NBQKBNp"]

  const AFTER_11: Board := [
    "rnbqkbnr", "pppppp.p", "........", "P.......",
    "........", "........", ".PPPPP..", ".NBQKBNR"]

  /** A calm position of the game, not over. */
  ghost predicate Stands(st: State, b: Board, white: bool) {
    st.l.board == b && st.whiteToMove == white && !st.gameOver && Calm(b)
  }

  /** What one quiet move of the game does, whoever makes it. */
  ghost predicate Goes(st: State, f: Cell, t: Cell, d: nat) {
    && LegalTo(st.l, st.whiteToMove, f, t, d) == Yes && Holds(st.l.board, f, st.whiteToMove)
    && MoveTo(st, f, t, d) == (if IsPawn(At(st.l.board, f)) && LastRank(t) then Some((Execute(st, f, t), Promotion))
                               else Some((Next(st, f, t), Success)))
    && EngineTo(st, f, t, d) == Some((Next(st, f, t), Some(At(st.l.board, t))))
  }

  lemma Steps(st: State, b: Board, white: bool, f: Cell, t: Cell, b': Board, d: nat)
    requires Stands(st, b, white) && Quiet(st, f, t) && d >= 2 && ExecutedBoard(b, f, t) == b'
    ensures Stands(Next(st, f, t), b', !white) && Goes(st, f, t, d)
  {
    QuietMove(st, f, t, d);
    CalmIsLegal(st.l, st.whiteToMove, f, t, d);
  }

  lemma Board1()
    ensures At(START_BOARD, Square(6, 7)) == 'P'
    ensures ExecutedBoard(START_BOARD, Square(6, 7), Square(4, 7)) == AFTER_1
  {
    var f: Cell, t: Cell := Square(6, 7), Square(4, 7);
    assert At(START_BOARD, f) == 'P';
    assert ExecutedBoard(START_BOARD, f, t) == Put(Put(START_BOARD, t, 'P'), f, '.');
    assert "........"[7 := 'P'] == ".......P";
    assert "PPPPPPPP"[7 := '.'] == "PPPPPPP.";
  }

  lemma Board2()
    ensures At(AFTER_1, Square(1, 6)) == 'p'
    ensures ExecutedBoard(AFTER_1, Square(1, 6), Square(3, 6)) == AFTER_2
  {
    var f: Cell, t: Cell := Square(1, 6), Square(3, 6);
    assert At(AFTER_1, f) == 'p';
    assert ExecutedBoard(AFTER_1, f, t) == Put(Put(AFTER_1, t, 'p'), f, '.');
    assert "........"[6 := 'p'] == "......p.";
    assert "pppppppp"[6 := '.'] == "pppppp.p";
  }

  lemma Board3()
    ensures At(AFTER_2, Square(6, 0)) == 'P'
    ensures ExecutedBoard(AFTER_2, Square(6, 0), Square(4, 0)) == AFTER_3
  {
    var f: Cell, t: Cell := Square(6, 0), Square(4, 0);
    assert At(AFTER_2, f) == 'P';
    assert ExecutedBoard(AFTER_2, f, t) == Put(Put(AFTER_2, t, 'P'), f, '.');
    assert ".......P"[0 := 'P'] == "P......P";
    assert "PPPPPPP."[0 := '.'] == ".PPPPPP.";
  }

  lemma Board4()
    ensures At(AFTER_3, Square(3, 6)) == 'p'
    ensures ExecutedBoard(AFTER_3, Square(3, 6), Square(4, 7)) == AFTER_4
  {
    var f: Cell, t: Cell := Square(3, 6), Square(4, 7);
    assert At(AFTER_3, f) == 'p';
    assert ExecutedBoard(AFTER_3, f, t) == Put(Put(AFTER_3, t, 'p'), f, '.');
    assert "P......P"[7 := 'p'] == "P......p";
    assert "......p."[6 := '.'] == "........";
  }

  lemma Board5()
    ensures At(AFTER_4, Square(7, 0)) == 'R'
    ensures ExecutedBoard(AFTER_4, Square(7, 0), Square(5, 0)) == AFTER_5
  {
    var f: Cell, t: Cell := Square(7, 0), Square(5, 0);
    assert At(AFTER_4, f) == 'R';
    assert ExecutedBoard(AFTER_4, f, t) == Put(Put(AFTER_4, t, 'R'), f, '.');
    assert "........"[0 := 'R'] == "R.......";
    assert "RNBQKBNR"[0 := '.'] == ".NBQKBNR";
  }

  lemma Board6()
    ensures At(AFTER_5, Square(4, 7)) == 'p'
    ensures ExecutedBoard(AFTER_5, Square(4, 7), Square(5, 7)) == AFTER_6
  {
    var f: Cell, t: Cell := Square(4, 7), Square(5, 7);
    assert At(AFTER_5, f) == 'p';
    assert ExecutedBoard(AFTER_5, f, t) == Put(Put(AFTER_5, t, 'p'), f, '.');
    assert "R......."[7 := 'p'] == "R......p";
    assert "P......p"[7 := '.'] == "P.......";
  }

  lemma Board7()
    ensures At(AFTER_6, Square(4, 0)) == 'P'
    ensures ExecutedBoard(AFTER_6, Square(4, 0), Square(3, 0)) == AFTER_7
  {
    var f: Cell, t: Cell := Square(4, 0), Square(3, 0);
    assert At(AFTER_6, f) == 'P';
    assert ExecutedBoard(AFTER_6, f, t) == Put(Put(AFTER_6, t, 'P'), f, '.');
    assert "........"[0 := 'P'] == "P.......";
    assert "P......."[0 := '.'] == "........";
  }

  lemma Board8()
    ensures At(AFTER_7, Square(5, 7)) == 'p'
    ensures ExecutedBoard(AFTER_7, Square(5, 7), Square(6, 6)) == AFTER_8
  {
    var f: Cell, t: Cell := Square(5, 7), Square(6, 6);
    assert At(AFTER_7, f) == 'p';
    assert ExecutedBoard(AFTER_7, f, t) == Put(Put(AFTER_7, t, 'p'), f, '.');
    assert ".PPPPPP."[6 := 'p'] == ".PPPPPp.";
    assert "R......p"[7 := '.'] == "R.......";
  }

  lemma Board9()
    ensures At(AFTER_8, Square(5, 0)) == 'R'
    ensures ExecutedBoard(AFTER_8, Square(5, 0), Square(5, 7)) == AFTER_9
  {
    var f: Cell, t: Cell := Square(5, 0), Square(5, 7);
    assert At(AFTER_8, f) == 'R';
    assert ExecutedBoard(AFTER_8, f, t) == Put(Put(AFTER_8, t, 'R'), f, '.');
    assert "R......."[7 := 'R'] == "R......R";
    assert "R......R"[0 := '.'] == ".......R";
  }

  lemma Board10()
    ensures At(AFTER_9, Square(6, 6)) == 'p'
    ensures ExecutedBoard(AFTER_9, Square(6, 6), Square(7, 7)) == AFTER_10
  {
    var f: Cell, t: Cell := Square(6, 6), Square(7, 7);
    assert At(AFTER_9, f) == 'p';
    assert ExecutedBoard(AFTER_9, f, t) == Put(Put(AFTER_9, t, 'p'), f, '.');
    assert ".NBQKBNR"[7 := 'p'] == ".NBQKBNp";
    assert ".PPPPPp."[6 := '.'] == ".PPPPP..";
  }

  lemma Board11()
    ensures At(AFTER_10, Square(5, 7)) == 'R'
    ensures ExecutedBoard(AFTER_10, Square(5, 7), Square(7, 7)) == AFTER_11
  {
    var f: Cell, t: Cell := Square(5, 7), Square(7, 7);
    assert At(AFTER_10, f) == 'R';
    assert ExecutedBoard(AFTER_10, f, t) == Put(Put(AFTER_10, t, 'R'), f, '.');
    assert ".NBQKBNp"[7 := 'R'] == ".NBQKBNR";
    assert ".......R"[7 := '.'] == "........";
  }


  lemma Move1(st: State, d: nat)
    requires Stands(st, START_BOARD, true) && d >= 2
    ensures Goes(st, Square(6, 7), Square(4, 7), d)
    ensures Stands(Next(st, Square(6, 7), Square(4, 7)), AFTER_1, false)
  {
    Board1();
    Steps(st, START_BOARD, true, Square(6, 7), Square(4, 7), AFTER_1, d);
  }

  lemma Move2(st: State, d: nat)
    requires Stands(st, AFTER_1, false) && d >= 2
    ensures Goes(st, Square(1, 6), Square(3, 6), d)
    ensures Stands(Next(st, Square(1, 6), Square(3, 6)), AFTER_2, true)
  {
    Board2();
    Steps(st, AFTER_1, false, Square(1, 6), Square(3, 6), AFTER_2, d);
  }

  lemma Move3(st: State, d: nat)
    requires Stands(st, AFTER_2, true) && d >= 2
    ensures Goes(st, Square(6, 0), Square(4, 0), d)
    ensures Stands(Next(st, Square(6, 0), Square(4, 0)), AFTER_3, false)
  {
    Board3();
    Steps(st, AFTER_2, true, Square(6, 0), Square(4, 0), AFTER_3, d);
  }

  lemma Move4(st: State, d: nat)
    requires Stands(st, AFTER_3, false) && d >= 2
    ensures Goes(st, Square(3, 6), Square(4, 7), d)
    ensures Stands(Next(st, Square(3, 6), Square(4, 7)), AFTER_4, true)
  {
    Board4();
    Steps(st, AFTER_3, false, Square(3, 6), Square(4, 7), AFTER_4, d);
  }

  lemma Move5(st: State, d: nat)
    requires Stands(st, AFTER_4, true) && d >= 2
    ensures Goes(st, Square(7, 0), Square(5, 0), d)
    ensures Stands(Next(st, Square(7, 0), Square(5, 0)), AFTER_5, false)
  {
    Board5();
    Steps(st, AFTER_4, true, Square(7, 0), Square(5, 0), AFTER_5, d);
  }

  lemma Move6(st: State, d: nat)
    requires Stands(st, AFTER_5, false) && d >= 2
    ensures Goes(st, Square(4, 7), Square(5, 7), d)
    ensures Stands(Next(st, Square(4, 7), Square(5, 7)), AFTER_6, true)
  {
    Board6();
    Steps(st, AFTER_5, false, Square(4, 7), Square(5, 7), AFTER_6, d);
  }

  lemma Move7(st: State, d: nat)
    requires Stands(st, AFTER_6, true) && d >= 2
    ensures Goes(st, Square(4, 0), Square(3, 0), d)
    ensures Stands(Next(st, Square(4, 0), Square(3, 0)), AFTER_7, false)
  {
    Board7();
    Steps(st, AFTER_6, true, Square(4, 0), Square(3, 0), AFTER_7, d);
  }

  lemma Move8(st: State, d: nat)
    requires Stands(st, AFTER_7, false) && d >= 2
    ensures Goes(st, Square(5, 7), Square(6, 6), d)
    ensures Stands(Next(st, Square(5, 7), Square(6, 6)), AFTER_8, true)
  {
    Board8();
    Steps(st, AFTER_7, false, Square(5, 7), Square(6, 6), AFTER_8, d);
  }

  lemma Move9(st: State, d: nat)
    requires Stands(st, AFTER_8, true) && d >= 2
    ensures Goes(st, Square(5, 0), Square(5, 7), d)
    ensures Stands(Next(st, Square(5, 0), Square(5, 7)), AFTER_9, false)
  {
    Board9();
    Steps(st, AFTER_8, true, Square(5, 0), Square(5, 7), AFTER_9, d);
  }

  lemma Move10(st: State, d: nat)
    requires Stands(st, AFTER_9, false) && d >= 2
    ensures Goes(st, Square(6, 6), Square(7, 7), d)
    ensures Stands(Next(st, Square(6, 6), Square(7, 7)), AFTER_10, true)
  {
    Board10();
    Steps(st, AFTER_9, false, Square(6, 6), Square(7, 7), AFTER_10, d);
  }

  lemma Move11(st: State, d: nat)
    requires Stands(st, AFTER_10, true) && d >= 2
    ensures Goes(st, Square(5, 7), Square(7, 7), d)
    ensures Stands(Next(st, Square(5, 7), Square(7, 7)), AFTER_11, false)
  {
    Board11();
    Steps(st, AFTER_10, true, Square(5, 7), Square(7, 7), AFTER_11, d);
  }
}
