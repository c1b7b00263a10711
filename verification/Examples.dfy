/** Concrete positions on which the code departs from the rules of chess. */
module Examples {
  import opened Squares
  import opened Rules
  import opened Settling
  import opened GameState
  import opened Positions
  import opened Runs
  import opened Chess
  import opened Depth

  /** Black has just played d7-d5; White's king a5 and Black's rook h5 have the two pawns between them. */
  const PINNED_PASSANT: Board := [
    ".......k", "........", "........", "K..pP..r",
    "........", "........", "........", "........"]

  function PinnedAt(s: Cell): char {
    if s == Square(0, 7) then 'k'
    else if s == Square(3, 0) then 'K'
    else if s == Square(3, 3) then 'p'
    else if s == Square(3, 4) then 'P'
    else if s == Square(3, 7) then 'r'
    else '.'
  }

  /** The position after d7-d5, with White to move. */
  ghost predicate Pinned(l: Layout) {
    (forall s: Cell :: At(l.board, s) == PinnedAt(s)) && l.ep == Some(Square(2, 3)) && l.moved.wK && l.moved.bK
  }

  lemma PinnedCells(l: Layout)
    requires l.board == PINNED_PASSANT && l.ep == Some(Square(2, 3)) && l.moved.wK && l.moved.bK
    ensures Pinned(l)
  {
  }

  lemma PinnedIsSound(l: Layout)
    requires Pinned(l)
    ensures Sound(l, true) && KingCell(l.board, true) == Some(Square(3, 0)) && KingCell(l.board, false) == Some(Square(0, 7))
    ensures !Checked(l, false)
  {
    KingCellIs(l.board, true, Square(3, 0));
    KingCellIs(l.board, false, Square(0, 7));
  }

  lemma PinnedCaptureIsLegal(l: Layout)
    requires Pinned(l)
    ensures Legal(l, true, Square(3, 4), Square(2, 3)) && !Hangs(l, true, Square(3, 4), Square(2, 3))
  {
    var f: Cell, t: Cell := Square(3, 4), Square(2, 3);
    TrialCells(l.board, f, t);
    var T := TryMove(l, f, t);
    KingCellIs(T.board, true, Square(3, 0));
    KingCellIs(T.board, false, Square(0, 7));
    assert Between(Square(3, 7), Square(3, 3), Square(3, 0));
  }

  lemma PinnedCaptureExposes(l: Layout)
    requires Pinned(l)
    ensures Exposes(l, true, Square(3, 4), Square(2, 3))
  {
    KingCellIs(l.board, true, Square(3, 0));
    assert SeesThrough(l, true, Square(3, 4), Square(2, 3), Square(3, 0), Square(3, 7));
  }

  /** e5xd6 en passant is legal for the code, and leaves White's king to the rook. */
  lemma EnPassantExposesKing(l: Layout)
    requires l.board == PINNED_PASSANT && l.ep == Some(Square(2, 3)) && l.moved.wK && l.moved.bK
    ensures SafelyLegal(l, true, Square(3, 4), Square(2, 3), None)
    ensures Checked(Played(l, Square(3, 4), Square(2, 3), None), true)
  {
    PinnedCells(l);
    PinnedIsSound(l);
    PinnedCaptureIsLegal(l);
    PinnedCaptureExposes(l);
    KingSafety(l, true, Square(3, 4), Square(2, 3), None);
  }

  lemma PinnedCaptureIsPlayed(st: State, d: nat)
    requires Pinned(st.l) && st.whiteToMove && !st.gameOver && d >= 2
    requires Checked(Played(st.l, Square(3, 4), Square(2, 3), None), true)
    ensures MoveTo(st, Square(3, 4), Square(2, 3), d).Some?
    ensures var (st', result) := MoveTo(st, Square(3, 4), Square(2, 3), d).value;
      result == Success && Checked(st'.l, true)
  {
    PinnedIsSound(st.l);
    PinnedCaptureIsLegal(st.l);
    KingsOnRanksApart(st.l, true, Square(3, 0), Square(0, 7));
    LegalIsPlayed(st, Square(3, 4), Square(2, 3), d);
    assert Execute(st, Square(3, 4), Square(2, 3)).l == Played(st.l, Square(3, 4), Square(2, 3), None);
  }

  /** The game makes the move, and White is left in check. */
  lemma ExposingCaptureIsPlayed(st: State, d: nat)
    requires st.l.board == PINNED_PASSANT && st.l.ep == Some(Square(2, 3)) && st.l.moved.wK && st.l.moved.bK
    requires st.whiteToMove && !st.gameOver && d >= 2
    ensures MoveTo(st, Square(3, 4), Square(2, 3), d).Some?
    ensures var (st', result) := MoveTo(st, Square(3, 4), Square(2, 3), d).value;
      result == Success && Checked(st'.l, true)
  {
    PinnedCells(st.l);
    EnPassantExposesKing(st.l);
    PinnedCaptureIsPlayed(st, d);
  }

  /** White's king about to step from a4 to b4, with Black's on d4, and nothing else on the board. */
  ghost predicate AboutToFace(l: Layout) {
    && (forall s: Cell :: At(l.board, s) == if s == Square(4, 0) then 'K' else if s == Square(4, 3) then 'k' else '.')
    && l.moved.wK && l.moved.bK
  }

  /** The step's legality test never returns. */
  lemma FacingStepHangs(l: Layout, f: Cell, t: Cell, d: nat)
    requires AboutToFace(l) && f == Square(4, 0) && t == Square(4, 1)
    ensures LegalTo(l, true, f, t, d) == Unsettled
  {
    KingCellIs(l.board, true, Square(4, 0));
    KingCellIs(l.board, false, Square(4, 3));
    TrialCells(l.board, f, t);
    var T := TryMove(l, f, t);
    KingCellIs(T.board, true, Square(4, 1));
    KingCellIs(T.board, false, Square(4, 3));
    BareKingsNeverSettle(T, true, d);
    PlainGeometry(l, 'K', f, t, d);
  }

  /** A king that steps to face the other: move never returns, at whatever depth. */
  lemma SteppingIntoAStandoffHangs(st: State, d: nat)
    requires AboutToFace(st.l) && st.whiteToMove && !st.gameOver
    ensures MoveTo(st, Square(4, 0), Square(4, 1), d).None?
    ensures EngineTo(st, Square(4, 0), Square(4, 1), d).None?
  {
    FacingStepHangs(st.l, Square(4, 0), Square(4, 1), d);
  }

  // --------------------------------------------------------- a mate that is none

  /** Black has just played g7-g5 against the king on h4; h5xg6 en passant would answer it. */
  function MateAt(s: Cell): char {
    if s == Square(0, 0) then 'k'
    else if s == Square(0, 2) then 'b'
    else if s == Square(0, 6) then 'r'
    else if s == Square(3, 6) then 'p'
    else if s == Square(3, 7) then 'P'
    else if s == Square(4, 7) then 'K'
    else if s == Square(5, 0) then 'r'
    else '.'
  }

  ghost predicate Mated(l: Layout) {
    (forall s: Cell :: At(l.board, s) == MateAt(s)) && l.ep == Some(Square(2, 6)) && l.moved.wK && l.moved.bK
  }

  lemma MatedIsSound(l: Layout)
    requires Mated(l)
    ensures Sound(l, true) && KingCell(l.board, true) == Some(Square(4, 7))
  {
    KingCellIs(l.board, true, Square(4, 7));
    KingCellIs(l.board, false, Square(0, 0));
  }

  /** The piece that catches the king on each square it could step to. */
  function Catcher(t: Cell): Cell {
    if t.row == 5 then Square(5, 0) else if t.row == 4 then Square(0, 2) else Square(0, 6)
  }

  lemma MatedKingStep(l: Layout, t: Cell)
    requires Mated(l) && KingStep(Square(4, 7), t) && t != Square(4, 7) && At(l.board, t) != 'P'
    ensures Checked(TryMove(l, Square(4, 7), t), true)
  {
    var f: Cell, T := Square(4, 7), TryMove(l, Square(4, 7), t);
    TrialCells(l.board, f, t);
    KingCellIs(T.board, true, t);
    OpenLineAttacks(T, true, Catcher(t), t);
    AttackMeansChecked(T, true, t, Catcher(t));
  }

  lemma MatedPawnMove(l: Layout, t: Cell)
    requires Mated(l) && t in {Square(2, 7), Square(2, 6)}
    ensures Checked(TryMove(l, Square(3, 7), t), true)
  {
    var f: Cell, T := Square(3, 7), TryMove(l, Square(3, 7), t);
    TrialCells(l.board, f, t);
    KingCellIs(T.board, true, Square(4, 7));
    AttackMeansChecked(T, true, Square(4, 7), Square(3, 6));
  }

  lemma MatedMoves(l: Layout, f: Cell, t: Cell)
    requires Mated(l) && MayMove(l, true, f, t)
    ensures || (f == Square(4, 7) && KingStep(f, t) && t != f && At(l.board, t) != 'P')
            || (f == Square(3, 7) && t in {Square(2, 7), Square(2, 6)})
  {
  }

  lemma MatedIsStuck(l: Layout, f: Cell, t: Cell)
    requires Mated(l)
    ensures !Legal(l, true, f, t)
  {
    if MayMove(l, true, f, t) {
      MatedMoves(l, f, t);
      if f == Square(4, 7) { MatedKingStep(l, t); } else { MatedPawnMove(l, t); }
    }
  }

  /** With both pawns still there, nothing but the pawn on g5 attacks the king. */
  lemma OnlyThePawnChecks(l: Layout, s: Cell)
    requires Mated(l) && s != Square(3, 6)
    ensures !Threatens(Trial(l.board, Square(3, 7), Square(2, 6)), true, s, Square(4, 7))
  {
    var T := TryMove(l, Square(3, 7), Square(2, 6));
    TrialCells(l.board, Square(3, 7), Square(2, 6));
    if Holds(T.board, s, false) { OccupiedAttacks(T, true, s, Square(4, 7)); }
  }

  lemma OnlyThePassedPawnChecks(l: Layout)
    requires Mated(l)
    ensures PassedPawnChecks(l, true, Square(3, 7), Square(2, 6)) && !AnotherChecks(l, true, Square(3, 7), Square(2, 6))
  {
    var f: Cell, t: Cell := Square(3, 7), Square(2, 6);
    MatedIsSound(l);
    forall s: Cell | s != Passed(f, t)
      ensures !Threatens(Trial(l.board, f, t), true, s, Square(4, 7))
    {
      OnlyThePawnChecks(l, s);
    }
    assert ChessAttacks(l.board, Passed(f, t), Square(4, 7));
  }

  lemma MatedCaptureHides(l: Layout)
    requires Mated(l)
    ensures !Exposes(l, true, Square(3, 7), Square(2, 6))
  {
    MatedIsSound(l);
  }

  lemma MatedCapture(l: Layout, h: seq<Record>)
    requires Mated(l) && l.ep == EpOf(h)
    ensures Refused(l, h, true, Square(3, 7), Square(2, 6))
  {
    MatedIsSound(l);
    OnlyThePassedPawnChecks(l);
    MatedCaptureHides(l);
    EnPassantLegalVersusChess(l, h, true, Square(3, 7), Square(2, 6));
  }

  /** Before the pawn's two steps, Black to move. */
  const BEFORE_FALSE_MATE: Board := [
    "k.b...r.", "......p.", "........", ".......P",
    ".......K", "r.......", "........", "........"]

  function BeforeMateAt(s: Cell): char {
    if s == Square(1, 6) then 'p' else if s == Square(3, 6) then '.' else MateAt(s)
  }

  ghost predicate BeforeMate(l: Layout) {
    (forall s: Cell :: At(l.board, s) == BeforeMateAt(s)) && l.ep == None && l.moved.wK && l.moved.bK
  }

  lemma BeforeMateCells(l: Layout)
    requires l.board == BEFORE_FALSE_MATE && l.ep == None && l.moved.wK && l.moved.bK
    ensures BeforeMate(l)
  {
  }

  lemma BeforeMateIsSound(l: Layout)
    requires BeforeMate(l)
    ensures Sound(l, false)
    ensures KingCell(l.board, true) == Some(Square(4, 7)) && KingCell(l.board, false) == Some(Square(0, 0))
  {
    KingCellIs(l.board, true, Square(4, 7));
    KingCellIs(l.board, false, Square(0, 0));
  }

  lemma TwoStepsAreLegal(l: Layout)
    requires BeforeMate(l)
    ensures Legal(l, false, Square(1, 6), Square(3, 6))
  {
    var f: Cell, t: Cell := Square(1, 6), Square(3, 6);
    TrialCells(l.board, f, t);
    KingCellIs(TryMove(l, f, t).board, false, Square(0, 0));
  }

  lemma TwoStepsMate(l: Layout)
    requires BeforeMate(l)
    ensures Mated(Played(l, Square(1, 6), Square(3, 6), None))
  {
    var f: Cell, t: Cell := Square(1, 6), Square(3, 6);
    BeforeMateIsSound(l);
    TwoStepsAreLegal(l);
    ExecutedCells(l, false, f, t);
  }

  lemma TwoStepsArePlayed(st: State, d: nat)
    requires BeforeMate(st.l) && !st.whiteToMove && !st.gameOver && d >= 2
    ensures var st1 := Execute(st, Square(1, 6), Square(3, 6)).(whiteToMove := true);
      MoveTo(st, Square(1, 6), Square(3, 6), d) == Some((Over(st1, true), Success))
      && Mated(st1.l) && st1.l == Played(st.l, Square(1, 6), Square(3, 6), None)
  {
    BeforeMateIsSound(st.l);
    TwoStepsAreLegal(st.l);
    TwoStepsMate(st.l);
    KingsOnRanksApart(st.l, false, Square(4, 7), Square(0, 0));
    LegalIsPlayed(st, Square(1, 6), Square(3, 6), d);
    var st1 := Execute(st, Square(1, 6), Square(3, 6)).(whiteToMove := true);
    MatedStandsStuck(st1);
  }

  lemma MatedStandsStuck(st: State)
    requires Mated(st.l) && st.whiteToMove
    ensures Sound(st.l, true) && Stuck(st) && Checked(st.l, true)
  {
    MatedIsSound(st.l);
    forall f: Cell, t: Cell
      ensures !Legal(st.l, true, f, t)
    {
      MatedIsStuck(st.l, f, t);
    }
    AttackMeansChecked(st.l, true, Square(4, 7), Square(3, 6));
  }

  lemma MatedIsNoMate(st: State)
    requires Mated(st.l) && st.whiteToMove && Remembers(st.l, st.history)
    ensures !ChessStuck(st)
  {
    MatedCapture(st.l, st.history);
    assert ChessLegal(st.l.board, st.history, true, Square(3, 7), Square(2, 6));
  }

  /** Black plays g7-g5: the code ends the game and records Black's win, and chess does not. */
  lemma FalseMateIsRecorded(st: State, d: nat)
    requires st.l.board == BEFORE_FALSE_MATE && st.l.ep == None && st.l.moved.wK && st.l.moved.bK
    requires !st.whiteToMove && !st.gameOver && d >= 2 && Remembers(st.l, st.history)
    ensures MoveTo(st, Square(1, 6), Square(3, 6), d).Some?
    ensures var (st', result) := MoveTo(st, Square(1, 6), Square(3, 6), d).value;
      result == Success && st'.gameOver && st'.pending == Some(BlackWins) && !ChessStuck(st')
  {
    BeforeMateCells(st.l);
    TwoStepsArePlayed(st, d);
    var st1 := Execute(st, Square(1, 6), Square(3, 6)).(whiteToMove := true);
    ExecutedRemembers(st, Square(1, 6), Square(3, 6));
    MatedIsNoMate(st1);
    OverKeepsChess(st1);
  }

  lemma OverKeepsChess(st: State)
    ensures ChessStuck(Over(st, true)) <==> ChessStuck(st)
  {
  }

  /** Taken back, the game goes on, with Black's win still recorded. */
  lemma ResultOutlivesUndo(st: State, d: nat)
    requires st.l.board == BEFORE_FALSE_MATE && st.l.ep == None && st.l.moved.wK && st.l.moved.bK
    requires !st.whiteToMove && !st.gameOver && d >= 2
    ensures MoveTo(st, Square(1, 6), Square(3, 6), d).Some?
    ensures var undone := UndoOf(MoveTo(st, Square(1, 6), Square(3, 6), d).value.0);
      && undone.Some? && undone.value.l == st.l && undone.value.history == st.history
      && !undone.value.gameOver && !undone.value.whiteToMove && undone.value.pending == Some(BlackWins)
  {
    var f: Cell, t: Cell := Square(1, 6), Square(3, 6);
    BeforeMateCells(st.l);
    BeforeMateIsSound(st.l);
    TwoStepsAreLegal(st.l);
    TwoStepsArePlayed(st, d);
    var st' := MoveTo(st, f, t, d).value.0;
    UndoRestoresBoard(st.l, false, f, t, None, st'.history[|st.history|]);
    assert st'.history[..|st'.history| - 1] == st.history;
  }

  // -------------------------------------------------- castling past a pawn

  /** Black's pawn on g2 attacks f1, which White's king crosses. */
  const PAWN_ON_G2: Board := [
    "k.......", "........", "........", "........",
    "........", "........", "......p.", "....K..R"]

  function PawnOnG2At(s: Cell): char {
    if s == Square(0, 0) then 'k'
    else if s == Square(6, 6) then 'p'
    else if s == Square(7, 4) then 'K'
    else if s == Square(7, 7) then 'R'
    else '.'
  }

  ghost predicate PawnOnG2(l: Layout) {
    && (forall s: Cell :: At(l.board, s) == PawnOnG2At(s))
    && l.ep == None && l.moved == Moved(false, true, false, false, true, true)
  }

  lemma PawnOnG2Cells(l: Layout)
    requires l.board == PAWN_ON_G2 && l.ep == None && l.moved == Moved(false, true, false, false, true, true)
    ensures PawnOnG2(l)
  {
  }

  lemma PawnOnG2IsSound(l: Layout)
    requires PawnOnG2(l)
    ensures Sound(l, true)
    ensures KingCell(l.board, true) == Some(Square(7, 4)) && KingCell(l.board, false) == Some(Square(0, 0))
  {
    KingCellIs(l.board, true, Square(7, 4));
    KingCellIs(l.board, false, Square(0, 0));
  }

  /** The code sees no attack on the king or on the square it crosses. */
  lemma PawnOnG2Overlooked(l: Layout, x: Cell)
    requires PawnOnG2(l) && x in {Square(7, 4), Square(7, 5)}
    ensures !AttackedBy(l, x, false)
  {
    forall s: Cell | Holds(l.board, s, false)
      ensures !Attacks(l, At(l.board, s), s, x)
    {
      assert s == Square(0, 0) || s == Square(6, 6);
    }
  }

  lemma PawnOnG2Path(l: Layout)
    requires PawnOnG2(l)
    ensures PathClear(l.board, Square(7, 4), Square(7, 7)) && At(l.board, Square(7, 6)) == '.'
  {
  }

  lemma PawnOnG2NoCheck(l: Layout)
    requires PawnOnG2(l)
    ensures !Checked(l, true)
  {
    PawnOnG2IsSound(l);
    PawnOnG2Overlooked(l, Square(7, 4));
  }

  lemma CastlesGiven(l: Layout, f: Cell, t: Cell)
    requires f == Square(7, 4) && t == Square(7, 6) && At(l.board, f) == 'K' && At(l.board, t) == '.'
    requires !l.moved.wK && !l.moved.wH && !Checked(l, true) && PathClear(l.board, f, Square(7, 7))
    requires !AttackedBy(l, Square(7, 5), false)
    ensures CastlingShape(l.board, f, t) && MayCastle(l, true, f, t)
  {
    assert Corner(f, t) == Square(7, 7) && PassedOver(f, t) == Square(7, 5);
  }

  lemma PawnOnG2MayCastle(l: Layout)
    requires PawnOnG2(l)
    ensures CastlingShape(l.board, Square(7, 4), Square(7, 6)) && MayCastle(l, true, Square(7, 4), Square(7, 6))
  {
    PawnOnG2NoCheck(l);
    PawnOnG2Path(l);
    PawnOnG2Overlooked(l, Square(7, 5));
    CastlesGiven(l, Square(7, 4), Square(7, 6));
  }

  lemma PawnOnG2IsLegal(l: Layout)
    requires PawnOnG2(l)
    ensures Legal(l, true, Square(7, 4), Square(7, 6))
  {
    var f: Cell, t: Cell := Square(7, 4), Square(7, 6);
    PawnOnG2MayCastle(l);
    TrialCells(l.board, f, t);
    KingCellIs(TryMove(l, f, t).board, true, t);
  }

  /** The code castles across it, with rook and king unmoved; chess does not. */
  lemma CastlesPastAPawn(l: Layout, h: seq<Record>)
    requires l.board == PAWN_ON_G2 && l.ep == None && l.moved == Moved(false, true, false, false, true, true)
    ensures Sound(l, true) && Legal(l, true, Square(7, 4), Square(7, 6))
    ensures !ChessLegal(l.board, h, true, Square(7, 4), Square(7, 6))
  {
    PawnOnG2Cells(l);
    PawnOnG2IsSound(l);
    PawnOnG2IsLegal(l);
    PawnOnG2Forbidden(l, h);
  }

  lemma PawnOnG2Forbidden(l: Layout, h: seq<Record>)
    requires PawnOnG2(l)
    ensures !ChessLegal(l.board, h, true, Square(7, 4), Square(7, 6))
  {
    var f: Cell, t: Cell := Square(7, 4), Square(7, 6);
    PawnOnG2MayCastle(l);
    assert PassedOver(f, t) == Square(7, 5);
    assert Between(f, PassedOver(f, t), t) && Threatens(l.board, true, Square(6, 6), PassedOver(f, t));
  }

  /** ... and the game makes the move. */
  lemma CastlingPastAPawnIsPlayed(st: State, d: nat)
    requires st.l.board == PAWN_ON_G2 && st.l.ep == None && st.l.moved == Moved(false, true, false, false, true, true)
    requires st.whiteToMove && !st.gameOver && d >= 2
    ensures MoveTo(st, Square(7, 4), Square(7, 6), d).Some? && MoveTo(st, Square(7, 4), Square(7, 6), d).value.1 == Success
    ensures !ChessLegal(st.l.board, st.history, true, Square(7, 4), Square(7, 6))
  {
    CastlesPastAPawn(st.l, st.history);
    PawnOnG2Cells(st.l);
    PawnOnG2IsPlayed(st, d);
  }

  lemma PawnOnG2IsPlayed(st: State, d: nat)
    requires PawnOnG2(st.l) && st.whiteToMove && !st.gameOver && d >= 2
    ensures MoveTo(st, Square(7, 4), Square(7, 6), d).Some? && MoveTo(st, Square(7, 4), Square(7, 6), d).value.1 == Success
  {
    PawnOnG2IsSound(st.l);
    PawnOnG2IsLegal(st.l);
    KingsOnRanksApart(st.l, true, Square(7, 4), Square(0, 0));
    LegalIsPlayed(st, Square(7, 4), Square(7, 6), d);
  }

  // ------------------------------------------------------ castling without a rook

  const NO_ROOK: Board := [
    "k.......", "........", "........", "........",
    "........", "........", "........", "....K..."]

  ghost predicate NoRook(l: Layout) {
    && (forall s: Cell :: At(l.board, s) == if s == Square(0, 0) then 'k' else if s == Square(7, 4) then 'K' else '.')
    && l.ep == None && l.moved == Moved(false, true, false, false, true, true)
  }

  lemma NoRookCells(l: Layout)
    requires l.board == NO_ROOK && l.ep == None && l.moved == Moved(false, true, false, false, true, true)
    ensures NoRook(l)
  {
  }

  lemma NoRookIsLegal(l: Layout)
    requires NoRook(l)
    ensures Sound(l, true) && Legal(l, true, Square(7, 4), Square(7, 6))
    ensures KingCell(l.board, true) == Some(Square(7, 4)) && KingCell(l.board, false) == Some(Square(0, 0))
  {
    var f: Cell, t: Cell := Square(7, 4), Square(7, 6);
    KingCellIs(l.board, true, f);
    KingCellIs(l.board, false, Square(0, 0));
    TrialCells(l.board, f, t);
    KingCellIs(TryMove(l, f, t).board, true, t);
  }

  /** With no rook on the board the king castles all the same. */
  lemma CastlesWithoutARook(st: State, d: nat)
    requires st.l.board == NO_ROOK && st.l.ep == None && st.l.moved == Moved(false, true, false, false, true, true)
    requires st.whiteToMove && !st.gameOver && d >= 2
    ensures MoveTo(st, Square(7, 4), Square(7, 6), d).Some? && MoveTo(st, Square(7, 4), Square(7, 6), d).value.1 == Success
    ensures !ChessLegal(st.l.board, st.history, true, Square(7, 4), Square(7, 6))
  {
    NoRookCells(st.l);
    NoRookIsPlayed(st, d);
  }

  lemma NoRookIsPlayed(st: State, d: nat)
    requires NoRook(st.l) && st.whiteToMove && !st.gameOver && d >= 2
    ensures MoveTo(st, Square(7, 4), Square(7, 6), d).Some? && MoveTo(st, Square(7, 4), Square(7, 6), d).value.1 == Success
    ensures !ChessLegal(st.l.board, st.history, true, Square(7, 4), Square(7, 6))
  {
    NoRookIsLegal(st.l);
    KingsOnRanksApart(st.l, true, Square(7, 4), Square(0, 0));
    LegalIsPlayed(st, Square(7, 4), Square(7, 6), d);
  }

  // ------------------------------------------------- a stalemate that is not seen

  /** Before d7-d5, Black to move; after it, White's only move e5xd6 uncovers the king to the rook on h5. */
  const BEFORE_STALEMATE: Board := [
    ".r.....k", "...p....", "....r...", "K...P..r",
    ".......r", "........", "........", "........"]

  function StalemateAt(s: Cell): char {
    if s == Square(0, 1) || s == Square(2, 4) || s == Square(3, 7) || s == Square(4, 7) then 'r'
    else if s == Square(0, 7) then 'k'
    else if s == Square(3, 0) then 'K'
    else if s == Square(3, 3) then 'p'
    else if s == Square(3, 4) then 'P'
    else '.'
  }

  ghost predicate Stalemated(l: Layout) {
    (forall s: Cell :: At(l.board, s) == StalemateAt(s)) && l.ep == Some(Square(2, 3)) && l.moved.wK && l.moved.bK
  }

  function BeforeStalemateAt(s: Cell): char {
    if s == Square(1, 3) then 'p' else if s == Square(3, 3) then '.' else StalemateAt(s)
  }

  ghost predicate BeforeStalemate(l: Layout) {
    (forall s: Cell :: At(l.board, s) == BeforeStalemateAt(s)) && l.ep == None && l.moved.wK && l.moved.bK
  }

  lemma BeforeStalemateCells(l: Layout)
    requires l.board == BEFORE_STALEMATE && l.ep == None && l.moved.wK && l.moved.bK
    ensures BeforeStalemate(l)
  {
  }

  lemma BeforeStalemateIsSound(l: Layout)
    requires BeforeStalemate(l)
    ensures Sound(l, false)
    ensures KingCell(l.board, true) == Some(Square(3, 0)) && KingCell(l.board, false) == Some(Square(0, 7))
  {
    KingCellIs(l.board, true, Square(3, 0));
    KingCellIs(l.board, false, Square(0, 7));
  }

  lemma PushIsLegal(l: Layout)
    requires BeforeStalemate(l)
    ensures Legal(l, false, Square(1, 3), Square(3, 3))
  {
    var f: Cell, t: Cell := Square(1, 3), Square(3, 3);
    TrialCells(l.board, f, t);
    KingCellIs(TryMove(l, f, t).board, false, Square(0, 7));
  }

  lemma PushStalemates(l: Layout)
    requires BeforeStalemate(l)
    ensures Stalemated(Played(l, Square(1, 3), Square(3, 3), None))
  {
    BeforeStalemateIsSound(l);
    PushIsLegal(l);
    ExecutedCells(l, false, Square(1, 3), Square(3, 3));
  }

  lemma StalematedIsSound(l: Layout)
    requires Stalemated(l)
    ensures Sound(l, true) && KingCell(l.board, true) == Some(Square(3, 0))
  {
    KingCellIs(l.board, true, Square(3, 0));
    KingCellIs(l.board, false, Square(0, 7));
  }

  /** The rook that covers each square the king could step to. */
  function Warden(t: Cell): Cell {
    if t.row == 4 then Square(4, 7) else if t.row == 2 && t.col == 0 then Square(2, 4) else Square(0, 1)
  }

  lemma StalematedKingStep(l: Layout, t: Cell)
    requires Stalemated(l) && KingStep(Square(3, 0), t) && t != Square(3, 0)
    ensures Checked(TryMove(l, Square(3, 0), t), true)
  {
    var f: Cell, T := Square(3, 0), TryMove(l, Square(3, 0), t);
    TrialCells(l.board, f, t);
    KingCellIs(T.board, true, t);
    OpenLineAttacks(T, true, Warden(t), t);
    AttackMeansChecked(T, true, t, Warden(t));
  }

  lemma OnlyTheCapture(l: Layout, f: Cell, t: Cell)
    requires Stalemated(l) && Legal(l, true, f, t)
    ensures f == Square(3, 4) && t == Square(2, 3)
  {
    if f == Square(3, 0) { StalematedKingStep(l, t); }
  }

  lemma TheCaptureIsLegal(l: Layout)
    requires Stalemated(l)
    ensures Legal(l, true, Square(3, 4), Square(2, 3)) && EnPassantCapture(l.board, Square(3, 4), Square(2, 3))
  {
    var f: Cell, t: Cell := Square(3, 4), Square(2, 3);
    TrialCells(l.board, f, t);
    var T := TryMove(l, f, t);
    KingCellIs(T.board, true, Square(3, 0));
    assert Between(Square(3, 7), Square(3, 3), Square(3, 0));
  }

  lemma TheCaptureExposes(l: Layout)
    requires Stalemated(l)
    ensures Exposes(l, true, Square(3, 4), Square(2, 3))
  {
    StalematedIsSound(l);
    assert SeesThrough(l, true, Square(3, 4), Square(2, 3), Square(3, 0), Square(3, 7));
  }

  lemma StalematedInChess(st: State)
    requires Stalemated(st.l) && st.whiteToMove && Remembers(st.l, st.history)
    ensures ChessStuck(st)
  {
    forall f: Cell, t: Cell
      ensures !ChessLegal(st.l.board, st.history, true, f, t)
    {
      ChessHasNoMove(st.l, st.history, f, t);
    }
  }

  lemma StalematedIsNotStuck(st: State)
    requires Stalemated(st.l) && st.whiteToMove
    ensures !Stuck(st)
  {
    TheCaptureIsLegal(st.l);
  }

  lemma PassantMoves(l: Layout, h: seq<Record>)
    requires Stalemated(l) && l.ep == EpOf(h)
    ensures forall f: Cell, t: Cell :: EnPassantCapture(l.board, f, t) && ChessMoves(l.board, h, true, f, t) ==>
      f == Square(3, 4) && t == Square(2, 3)
  {
  }

  lemma ChessHasNoMove(l: Layout, h: seq<Record>, f: Cell, t: Cell)
    requires Stalemated(l) && Remembers(l, h)
    ensures !ChessLegal(l.board, h, true, f, t)
  {
    StalematedIsSound(l);
    PassantMoves(l, h);
    if CastlingShape(l.board, f, t) {
      assert !Unspoilt(h, true, t.col > f.col);
    } else if EnPassantCapture(l.board, f, t) {
      if ChessMoves(l.board, h, true, f, t) {
        TheCaptureExposes(l);
        EnPassantLegalVersusChess(l, h, true, f, t);
      }
    } else {
      OrdinaryLegalIsChess(l, h, true, f, t);
      if Legal(l, true, f, t) { OnlyTheCapture(l, f, t); }
    }
  }

  /** Black plays d7-d5: chess has White stalemated, and the code plays on. */
  lemma StalemateIsNotSeen(st: State, d: nat)
    requires st.l.board == BEFORE_STALEMATE && st.l.ep == None && st.l.moved.wK && st.l.moved.bK
    requires !st.whiteToMove && !st.gameOver && d >= 2 && Remembers(st.l, st.history)
    ensures MoveTo(st, Square(1, 3), Square(3, 3), d).Some?
    ensures var (st', result) := MoveTo(st, Square(1, 3), Square(3, 3), d).value;
      result == Success && !st'.gameOver && ChessStuck(st')
  {
    BeforeStalemateCells(st.l);
    PushIsPlayed(st, d);
    ExecutedRemembers(st, Square(1, 3), Square(3, 3));
    StalematedInChess(Execute(st, Square(1, 3), Square(3, 3)).(whiteToMove := true));
  }

  lemma PushLeads(st: State)
    requires BeforeStalemate(st.l) && !st.whiteToMove
    ensures var st1 := Execute(st, Square(1, 3), Square(3, 3)).(whiteToMove := true); Stalemated(st1.l) && !Stuck(st1)
  {
    PushStalemates(st.l);
    var st1 := Execute(st, Square(1, 3), Square(3, 3)).(whiteToMove := true);
    assert st1.l == Played(st.l, Square(1, 3), Square(3, 3), None);
    StalematedIsNotStuck(st1);
  }

  lemma PushIsPlayed(st: State, d: nat)
    requires BeforeStalemate(st.l) && !st.whiteToMove && !st.gameOver && d >= 2
    ensures var st1 := Execute(st, Square(1, 3), Square(3, 3)).(whiteToMove := true);
      MoveTo(st, Square(1, 3), Square(3, 3), d) == Some((st1, Success)) && Stalemated(st1.l)
  {
    BeforeStalemateIsSound(st.l);
    PushIsLegal(st.l);
    PushLeads(st);
    KingsOnRanksApart(st.l, false, Square(3, 0), Square(0, 7));
    LegalIsPlayed(st, Square(1, 3), Square(3, 3), d);
  }
}
