/** The sample game as a run, and a short one: a castling right that is no longer true, a pawn that undo loses. */
module SampleRuns {
  import opened Squares
  import opened GameState
  import opened Runs
  import opened Games
  import opened Fen
  import opened Printable
  import opened CalmPositions
  import opened SampleGame

  /** The run stands at this board, and nothing has spoilt White's kingside flags. */
  ghost predicate RunsTo(plies: seq<Ply>, st: State, b: Board, white: bool, d: nat) {
    Run(plies, d) == Some(st) && Stands(st, b, white) && !st.l.moved.wK && !st.l.moved.wH
  }

  function PlyOf(white: bool, f: Cell, t: Cell): Ply { if white then Human(f, t, 'q') else Engine(f, t) }

  /** White's moves are the human's, Black's the engine's. */
  lemma RunMore(plies: seq<Ply>, st: State, f: Cell, t: Cell, d: nat)
    requires Run(plies, d) == Some(st) && Goes(st, f, t, d)
    requires st.whiteToMove ==> !(IsPawn(At(st.l.board, f)) && LastRank(t))
    ensures Run(plies + [PlyOf(st.whiteToMove, f, t)], d) == Some(Next(st, f, t))
  {
    assert (plies + [PlyOf(st.whiteToMove, f, t)])[..|plies|] == plies;
  }

  lemma RunsOn(plies: seq<Ply>, st: State, b: Board, white: bool, f: Cell, t: Cell, b': Board, d: nat)
    requires RunsTo(plies, st, b, white, d) && Goes(st, f, t, d) && Stands(Next(st, f, t), b', !white)
    requires white ==> !(IsPawn(At(b, f)) && LastRank(t))
    requires At(b, f) != 'K' && !(At(b, f) == 'R' && f == Square(7, 7))
    ensures RunsTo(plies + [PlyOf(white, f, t)], Next(st, f, t), b', !white, d)
  {
    RunMore(plies, st, f, t, d);
  }

  lemma Ply1(plies: seq<Ply>, st: State, d: nat)
    requires RunsTo(plies, st, START_BOARD, true, d) && d >= 2
    ensures RunsTo(plies + [PlyOf(true, Square(6, 7), Square(4, 7))], Next(st, Square(6, 7), Square(4, 7)), AFTER_1, false, d)
  {
    Board1();
    Move1(st, d);
    RunsOn(plies, st, START_BOARD, true, Square(6, 7), Square(4, 7), AFTER_1, d);
  }

  lemma Ply2(plies: seq<Ply>, st: State, d: nat)
    requires RunsTo(plies, st, AFTER_1, false, d) && d >= 2
    ensures RunsTo(plies + [PlyOf(false, Square(1, 6), Square(3, 6))], Next(st, Square(1, 6), Square(3, 6)), AFTER_2, true, d)
  {
    Board2();
    Move2(st, d);
    RunsOn(plies, st, AFTER_1, false, Square(1, 6), Square(3, 6), AFTER_2, d);
  }

  lemma Ply3(plies: seq<Ply>, st: State, d: nat)
    requires RunsTo(plies, st, AFTER_2, true, d) && d >= 2
    ensures RunsTo(plies + [PlyOf(true, Square(6, 0), Square(4, 0))], Next(st, Square(6, 0), Square(4, 0)), AFTER_3, false, d)
  {
    Board3();
    Move3(st, d);
    RunsOn(plies, st, AFTER_2, true, Square(6, 0), Square(4, 0), AFTER_3, d);
  }

  lemma Ply4(plies: seq<Ply>, st: State, d: nat)
    requires RunsTo(plies, st, AFTER_3, false, d) && d >= 2
    ensures RunsTo(plies + [PlyOf(false, Square(3, 6), Square(4, 7))], Next(st, Square(3, 6), Square(4, 7)), AFTER_4, true, d)
  {
    Board4();
    Move4(st, d);
    RunsOn(plies, st, AFTER_3, false, Square(3, 6), Square(4, 7), AFTER_4, d);
  }

  lemma Ply5(plies: seq<Ply>, st: State, d: nat)
    requires RunsTo(plies, st, AFTER_4, true, d) && d >= 2
    ensures RunsTo(plies + [PlyOf(true, Square(7, 0), Square(5, 0))], Next(st, Square(7, 0), Square(5, 0)), AFTER_5, false, d)
  {
    Board5();
    Move5(st, d);
    RunsOn(plies, st, AFTER_4, true, Square(7, 0), Square(5, 0), AFTER_5, d);
  }

  lemma Ply6(plies: seq<Ply>, st: State, d: nat)
    requires RunsTo(plies, st, AFTER_5, false, d) && d >= 2
    ensures RunsTo(plies + [PlyOf(false, Square(4, 7), Square(5, 7))], Next(st, Square(4, 7), Square(5, 7)), AFTER_6, true, d)
  {
    Board6();
    Move6(st, d);
    RunsOn(plies, st, AFTER_5, false, Square(4, 7), Square(5, 7), AFTER_6, d);
  }

  lemma Ply7(plies: seq<Ply>, st: State, d: nat)
    requires RunsTo(plies, st, AFTER_6, true, d) && d >= 2
    ensures RunsTo(plies + [PlyOf(true, Square(4, 0), Square(3, 0))], Next(st, Square(4, 0), Square(3, 0)), AFTER_7, false, d)
  {
    Board7();
    Move7(st, d);
    RunsOn(plies, st, AFTER_6, true, Square(4, 0), Square(3, 0), AFTER_7, d);
  }

  lemma Ply8(plies: seq<Ply>, st: State, d: nat)
    requires RunsTo(plies, st, AFTER_7, false, d) && d >= 2
    ensures RunsTo(plies + [PlyOf(false, Square(5, 7), Square(6, 6))], Next(st, Square(5, 7), Square(6, 6)), AFTER_8, true, d)
  {
    Board8();
    Move8(st, d);
    RunsOn(plies, st, AFTER_7, false, Square(5, 7), Square(6, 6), AFTER_8, d);
  }

  lemma Ply9(plies: seq<Ply>, st: State, d: nat)
    requires RunsTo(plies, st, AFTER_8, true, d) && d >= 2
    ensures RunsTo(plies + [PlyOf(true, Square(5, 0), Square(5, 7))], Next(st, Square(5, 0), Square(5, 7)), AFTER_9, false, d)
  {
    Board9();
    Move9(st, d);
    RunsOn(plies, st, AFTER_8, true, Square(5, 0), Square(5, 7), AFTER_9, d);
  }

  lemma Ply10(plies: seq<Ply>, st: State, d: nat)
    requires RunsTo(plies, st, AFTER_9, false, d) && d >= 2
    ensures RunsTo(plies + [PlyOf(false, Square(6, 6), Square(7, 7))], Next(st, Square(6, 6), Square(7, 7)), AFTER_10, true, d)
  {
    Board10();
    Move10(st, d);
    RunsOn(plies, st, AFTER_9, false, Square(6, 6), Square(7, 7), AFTER_10, d);
  }

  lemma Ply11(plies: seq<Ply>, st: State, d: nat)
    requires RunsTo(plies, st, AFTER_10, true, d) && d >= 2
    ensures RunsTo(plies + [PlyOf(true, Square(5, 7), Square(7, 7))], Next(st, Square(5, 7), Square(7, 7)), AFTER_11, false, d)
  {
    Board11();
    Move11(st, d);
    RunsOn(plies, st, AFTER_10, true, Square(5, 7), Square(7, 7), AFTER_11, d);
  }

  /** The first nine half-moves. */
  lemma NinePlies(d: nat) returns (plies: seq<Ply>, st: State)
    requires d >= 2
    ensures RunsTo(plies, st, AFTER_9, false, d) && |plies| == 9
  {
    StartIsCalm();
    plies, st := [], START_STATE;
    Ply1(plies, st, d);
    plies, st := plies + [PlyOf(true, Square(6, 7), Square(4, 7))], Next(st, Square(6, 7), Square(4, 7));
    Ply2(plies, st, d);
    plies, st := plies + [PlyOf(false, Square(1, 6), Square(3, 6))], Next(st, Square(1, 6), Square(3, 6));
    Ply3(plies, st, d);
    plies, st := plies + [PlyOf(true, Square(6, 0), Square(4, 0))], Next(st, Square(6, 0), Square(4, 0));
    Ply4(plies, st, d);
    plies, st := plies + [PlyOf(false, Square(3, 6), Square(4, 7))], Next(st, Square(3, 6), Square(4, 7));
    Ply5(plies, st, d);
    plies, st := plies + [PlyOf(true, Square(7, 0), Square(5, 0))], Next(st, Square(7, 0), Square(5, 0));
    Ply6(plies, st, d);
    plies, st := plies + [PlyOf(false, Square(4, 7), Square(5, 7))], Next(st, Square(4, 7), Square(5, 7));
    Ply7(plies, st, d);
    plies, st := plies + [PlyOf(true, Square(4, 0), Square(3, 0))], Next(st, Square(4, 0), Square(3, 0));
    Ply8(plies, st, d);
    plies, st := plies + [PlyOf(false, Square(5, 7), Square(6, 6))], Next(st, Square(5, 7), Square(6, 6));
    Ply9(plies, st, d);
    plies, st := plies + [PlyOf(true, Square(5, 0), Square(5, 7))], Next(st, Square(5, 0), Square(5, 7));
  }

  lemma TakesRookOnH1(st: State)
    requires Stands(st, AFTER_9, false)
    ensures CapturedOn(Next(st, Square(6, 6), Square(7, 7)).history, Square(7, 7))
  {
    var h := Next(st, Square(6, 6), Square(7, 7)).history;
    assert At(st.l.board, Square(7, 7)) == 'R';
    assert h[|st.history|].to == Square(7, 7) && h[|st.history|].captured != '.';
  }

  lemma StillCaptured(h: seq<Record>, r: Record, corner: Cell)
    requires CapturedOn(h, corner)
    ensures CapturedOn(h + [r], corner)
  {
    var i :| 0 <= i < |h| && h[i].to == corner && h[i].captured != '.';
    assert (h + [r])[i] == h[i];
  }

  /** All eleven half-moves. */
  lemma ElevenPlies(d: nat) returns (plies: seq<Ply>, st: State)
    requires d >= 2
    ensures RunsTo(plies, st, AFTER_11, false, d) && |plies| == 11 && CapturedOn(st.history, Square(7, 7))
  {
    var st9, st10;
    plies, st9 := NinePlies(d);
    Ply10(plies, st9, d);
    TakesRookOnH1(st9);
    plies, st10 := plies + [PlyOf(false, Square(6, 6), Square(7, 7))], Next(st9, Square(6, 6), Square(7, 7));
    Ply11(plies, st10, d);
    plies, st := plies + [PlyOf(true, Square(5, 7), Square(7, 7))], Next(st10, Square(5, 7), Square(7, 7));
    StillCaptured(st10.history, st.history[|st10.history|], Square(7, 7));
  }

  /**
    After these eleven half-moves the castling field still advertises White's kingside right,
    though the rook of h1 was taken there: the one that stands on h1 came from a1.
   */
  lemma CastlingRightOutlivesRook(d: nat) returns (plies: seq<Ply>, st: State)
    requires d >= 2
    ensures Run(plies, d) == Some(st) && |plies| == 11
    ensures 'K' in CastlingField(st.l) && CapturedOn(st.history, Square(7, 7)) && !Unspoilt(st.history, true, true)
  {
    plies, st := ElevenPlies(d);
    RightIsAdvertised(plies, st, d);
  }

  lemma RightIsAdvertised(plies: seq<Ply>, st: State, d: nat)
    requires RunsTo(plies, st, AFTER_11, false, d)
    ensures 'K' in CastlingField(st.l)
  {
    RunsAreReached(plies, d);
    FieldHolds(st, true, true);
    assert At(st.l.board, HomeOf(true)) == 'K' && At(st.l.board, Square(7, 7)) == 'R';
  }

  // --------------------------------------------------------- a pawn that undo loses

  const PASSANT_2: Board := [
    "rnbqkbnr", ".ppppppp", "p.......", "........",
    ".......P", "........", "PPPPPPP.", "RNBQKBNR"]

  const PASSANT_3: Board := [
    "rnbqkbnr", ".ppppppp", "p.......", ".......P",
    "........", "........", "PPPPPPP.", "RNBQKBNR"]

  const PASSANT_4: Board := [
    "rnbqkbnr", ".ppppp.p", "p.......", "......pP",
    "........", "........", "PPPPPPP.", "RNBQKBNR"]

  const PASSANT_5: Board := [
    "rnbqkbnr", ".ppppp.p", "p.....P.", "........",
    "........", "........", "PPPPPPP.", "RNBQKBNR"]

  lemma PassantBoard2()
    ensures At(AFTER_1, Square(1, 0)) == 'p'
    ensures ExecutedBoard(AFTER_1, Square(1, 0), Square(2, 0)) == PASSANT_2
  {
    var f: Cell, t: Cell := Square(1, 0), Square(2, 0);
    assert At(AFTER_1, f) == 'p';
    assert ExecutedBoard(AFTER_1, f, t) == Put(Put(AFTER_1, t, 'p'), f, '.');
    assert "........"[0 := 'p'] == "p.......";
    assert "pppppppp"[0 := '.'] == ".ppppppp";
  }

  lemma PassantPly2(plies: seq<Ply>, st: State, d: nat)
    requires RunsTo(plies, st, AFTER_1, false, d) && d >= 2
    ensures RunsTo(plies + [PlyOf(false, Square(1, 0), Square(2, 0))], Next(st, Square(1, 0), Square(2, 0)), PASSANT_2, true, d)
  {
    PassantBoard2();
    Steps(st, AFTER_1, false, Square(1, 0), Square(2, 0), PASSANT_2, d);
    RunsOn(plies, st, AFTER_1, false, Square(1, 0), Square(2, 0), PASSANT_2, d);
  }

  lemma PassantBoard3()
    ensures At(PASSANT_2, Square(4, 7)) == 'P'
    ensures ExecutedBoard(PASSANT_2, Square(4, 7), Square(3, 7)) == PASSANT_3
  {
    var f: Cell, t: Cell := Square(4, 7), Square(3, 7);
    assert At(PASSANT_2, f) == 'P';
    assert ExecutedBoard(PASSANT_2, f, t) == Put(Put(PASSANT_2, t, 'P'), f, '.');
    assert "........"[7 := 'P'] == ".......P";
    assert ".......P"[7 := '.'] == "........";
  }

  lemma PassantPly3(plies: seq<Ply>, st: State, d: nat)
    requires RunsTo(plies, st, PASSANT_2, true, d) && d >= 2
    ensures RunsTo(plies + [PlyOf(true, Square(4, 7), Square(3, 7))], Next(st, Square(4, 7), Square(3, 7)), PASSANT_3, false, d)
  {
    PassantBoard3();
    Steps(st, PASSANT_2, true, Square(4, 7), Square(3, 7), PASSANT_3, d);
    RunsOn(plies, st, PASSANT_2, true, Square(4, 7), Square(3, 7), PASSANT_3, d);
  }

  lemma PassantBoard4()
    ensures At(PASSANT_3, Square(1, 6)) == 'p'
    ensures ExecutedBoard(PASSANT_3, Square(1, 6), Square(3, 6)) == PASSANT_4
  {
    var f: Cell, t: Cell := Square(1, 6), Square(3, 6);
    assert At(PASSANT_3, f) == 'p';
    assert ExecutedBoard(PASSANT_3, f, t) == Put(Put(PASSANT_3, t, 'p'), f, '.');
    assert ".......P"[6 := 'p'] == "......pP";
    assert ".ppppppp"[6 := '.'] == ".ppppp.p";
  }

  lemma PassantPly4(plies: seq<Ply>, st: State, d: nat)
    requires RunsTo(plies, st, PASSANT_3, false, d) && d >= 2
    ensures RunsTo(plies + [PlyOf(false, Square(1, 6), Square(3, 6))], Next(st, Square(1, 6), Square(3, 6)), PASSANT_4, true, d)
  {
    PassantBoard4();
    Steps(st, PASSANT_3, false, Square(1, 6), Square(3, 6), PASSANT_4, d);
    RunsOn(plies, st, PASSANT_3, false, Square(1, 6), Square(3, 6), PASSANT_4, d);
  }

  lemma PassantBoard5()
    ensures At(PASSANT_4, Square(3, 7)) == 'P'
    ensures ExecutedBoard(PASSANT_4, Square(3, 7), Square(2, 6)) == PASSANT_5
  {
    var f: Cell, t: Cell := Square(3, 7), Square(2, 6);
    assert At(PASSANT_4, f) == 'P';
    assert ExecutedBoard(PASSANT_4, f, t) == Put(Put(Put(PASSANT_4, Square(3, 6), '.'), t, 'P'), f, '.');
    assert "......pP"[6 := '.'] == ".......P";
    assert "p......."[6 := 'P'] == "p.....P.";
    assert ".......P"[7 := '.'] == "........";
  }

  lemma PassantPly5(plies: seq<Ply>, st: State, d: nat)
    requires RunsTo(plies, st, PASSANT_4, true, d) && d >= 2 && st.l.ep == Some(Square(2, 6))
    ensures RunsTo(plies + [PlyOf(true, Square(3, 7), Square(2, 6))], Next(st, Square(3, 7), Square(2, 6)), PASSANT_5, false, d)
  {
    PassantBoard5();
    Steps(st, PASSANT_4, true, Square(3, 7), Square(2, 6), PASSANT_5, d);
    RunsOn(plies, st, PASSANT_4, true, Square(3, 7), Square(2, 6), PASSANT_5, d);
  }

  lemma PassantTarget(st: State)
    requires st.l.board == PASSANT_3
    ensures Next(st, Square(1, 6), Square(3, 6)).l.ep == Some(Square(2, 6))
  {
    PassantBoard4();
  }

  lemma FourPlies(d: nat) returns (plies: seq<Ply>, st: State)
    requires d >= 2
    ensures RunsTo(plies, st, PASSANT_4, true, d) && st.l.ep == Some(Square(2, 6))
  {
    StartIsCalm();
    plies, st := [], START_STATE;
    Ply1(plies, st, d);
    plies, st := plies + [PlyOf(true, Square(6, 7), Square(4, 7))], Next(st, Square(6, 7), Square(4, 7));
    PassantPly2(plies, st, d);
    plies, st := plies + [PlyOf(false, Square(1, 0), Square(2, 0))], Next(st, Square(1, 0), Square(2, 0));
    PassantPly3(plies, st, d);
    plies, st := plies + [PlyOf(true, Square(4, 7), Square(3, 7))], Next(st, Square(4, 7), Square(3, 7));
    PassantPly4(plies, st, d);
    PassantTarget(st);
    plies, st := plies + [PlyOf(false, Square(1, 6), Square(3, 6))], Next(st, Square(1, 6), Square(3, 6));
  }

  /** 1. h2-h4 a7-a6  2. h4-h5 g7-g5  3. h5xg6 e.p., taken back: Black's g-pawn is gone. */
  lemma UndoLosesAPawn(d: nat) returns (plies: seq<Ply>, st: State, st': State)
    requires d >= 2
    ensures Run(plies, d) == Some(st) && Run(plies + [Human(Square(3, 7), Square(2, 6), 'q')], d) == Some(st')
    ensures At(st.l.board, Square(3, 6)) == 'p'
    ensures UndoOf(st').Some? && At(UndoOf(st').value.l.board, Square(3, 6)) == '.' && UndoOf(st').value != st
  {
    plies, st := FourPlies(d);
    PassantPly5(plies, st, d);
    PassantGoes(st, d);
    st' := Next(st, Square(3, 7), Square(2, 6));
    RunsAreReached(plies, d);
    PassantIsUndone(st, d);
  }

  lemma PassantGoes(st: State, d: nat)
    requires Stands(st, PASSANT_4, true) && st.l.ep == Some(Square(2, 6)) && d >= 2
    ensures Goes(st, Square(3, 7), Square(2, 6), d)
  {
    PassantBoard5();
    Steps(st, PASSANT_4, true, Square(3, 7), Square(2, 6), PASSANT_5, d);
  }

  lemma PassantIsUndone(st: State, d: nat)
    requires Reached(st) && Stands(st, PASSANT_4, true) && Goes(st, Square(3, 7), Square(2, 6), d)
    ensures At(st.l.board, Square(3, 6)) == 'p'
    ensures var undone := UndoOf(Next(st, Square(3, 7), Square(2, 6)));
      undone.Some? && At(undone.value.l.board, Square(3, 6)) == '.'
  {
    var f: Cell, t: Cell := Square(3, 7), Square(2, 6);
    PassantBoard5();
    assert At(PASSANT_4, Square(3, 6)) == 'p' && At(PASSANT_4, t) == '.';
    UndoInverts(st, Human(f, t, 'q'), d);
  }
}
