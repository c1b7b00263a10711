/**
  Calm positions: both kings at home behind their own pieces, no enemy knight near them, and a
  pawn of each side free to step. Any move elsewhere is legal, and the tests all settle, so that
  whole games can be played through move by move.
 */
module CalmPositions {
  import opened Squares
  import opened Rules
  import opened Settling
  import opened GameState
  import opened Positions
  import opened Runs
  import opened Games
  import opened Depth

  /** The squares next to a king at home. */
  predicate Guards(white: bool, c: Cell) { c != HomeOf(white) && KingStep(c, HomeOf(white)) }

  predicate IsKnight(p: char) { p == 'N' || p == 'n' }

  ghost predicate Sheltered(b: Board, white: bool) {
    && (forall s: Cell :: At(b, s) == KingOf(white) <==> s == HomeOf(white))
    && (forall s: Cell :: Guards(white, s) ==> Holds(b, s, white))
    && (forall s: Cell :: KnightStep(s, HomeOf(white)) ==> !(Holds(b, s, !white) && IsKnight(At(b, s))))
  }

  /** The pawn of the c-file, and the square ahead of it. */
  predicate Spare(b: Board, white: bool) {
    && At(b, Square(PawnRow(white), 2)) == (if white then 'P' else 'p')
    && At(b, Square(PawnRow(white) + Forward(white), 2)) == '.'
  }

  ghost predicate Calm(b: Board) {
    Sheltered(b, true) && Sheltered(b, false) && Spare(b, true) && Spare(b, false)
  }

  /** The squares that calm moves stay off. */
  predicate Reserved(c: Cell) {
    || (2 <= c.col <= 5 && (c.row <= 1 || c.row >= 6))
    || (c.col == 2 && (c.row == 2 || c.row == 5))
  }

  /** Such a piece may stand there: it is no king, and no knight that jumps to the enemy king's square. */
  predicate Harmless(p: char, c: Cell) {
    !IsKing(p) && (IsKnight(p) ==> !KnightStep(c, HomeOf(!IsWhite(p))))
  }

  lemma ShelterStands(b: Board, white: bool, c: Cell, p: char)
    requires Sheltered(b, white) && c != HomeOf(white) && !Guards(white, c) && Harmless(p, c)
    ensures Sheltered(Put(b, c, p), white)
  {
  }

  lemma CalmStands(b: Board, c: Cell, p: char)
    requires Calm(b) && !Reserved(c) && Harmless(p, c)
    ensures Calm(Put(b, c, p))
  {
    ShelterStands(b, true, c, p);
    ShelterStands(b, false, c, p);
  }

  /** Between a square and a king at home, not next to each other, stands one of the guards. */
  lemma LinesAreGuarded(white: bool, s: Cell) returns (g: Cell)
    requires OnLine(s, HomeOf(white)) && s != HomeOf(white) && !Guards(white, s)
    ensures Guards(white, g) && Between(s, g, HomeOf(white))
  {
    var k := HomeOf(white);
    g := Square(k.row + UnitStep(s.row - k.row), k.col + UnitStep(s.col - k.col));
  }

  lemma ShelteredIsSafe(l: Layout, white: bool, s: Cell)
    requires Sheltered(l.board, white) && Holds(l.board, s, !white)
    ensures !Attacks(l, At(l.board, s), s, HomeOf(white))
  {
    if s != HomeOf(white) && OnLine(s, HomeOf(white)) && !Guards(white, s) {
      var g := LinesAreGuarded(white, s);
      assert Holds(l.board, g, white);
    }
  }

  lemma ShelteredKing(l: Layout, white: bool)
    requires Sheltered(l.board, white)
    ensures KingCell(l.board, white) == Some(HomeOf(white)) && Unique(l.board, white) && !Checked(l, white)
  {
    KingCellIs(l.board, white, HomeOf(white));
    forall s: Cell | Holds(l.board, s, !white)
      ensures !Attacks(l, At(l.board, s), s, HomeOf(white))
    {
      ShelteredIsSafe(l, white, s);
    }
  }

  lemma CalmKings(l: Layout)
    requires Calm(l.board)
    ensures SoleKings(l.board) && HomeKings(l) && RanksApart(l.board)
  {
    ShelteredKing(l, true);
    ShelteredKing(l, false);
  }

  /** A move off the reserved squares leaves the trial board calm. */
  lemma CalmTrial(b: Board, f: Cell, t: Cell)
    requires Calm(b) && !Reserved(f) && !Reserved(t) && Harmless(At(b, f), t)
    ensures Calm(Trial(b, f, t))
  {
    CalmStands(b, t, At(b, f));
    CalmStands(Put(b, t, At(b, f)), f, '.');
  }

  lemma CalmExecuted(b: Board, f: Cell, t: Cell)
    requires Calm(b) && !Reserved(f) && !Reserved(t) && Harmless(At(b, f), t)
    requires EnPassantCapture(b, f, t) ==> !Reserved(Passed(f, t))
    ensures Calm(ExecutedBoard(b, f, t))
  {
    var b1 := TakePassed(b, At(b, f), f, t);
    if EnPassantCapture(b, f, t) { CalmStands(b, Passed(f, t), '.'); }
    CalmStands(b1, t, At(b, f));
    CalmStands(Put(b1, t, At(b, f)), f, '.');
  }

  /** A sheltered king's side is never stuck: its c-pawn steps. */
  lemma ShelteredHasMove(st: State, white: bool)
    requires st.whiteToMove == white && Sheltered(st.l.board, white) && Spare(st.l.board, white)
    ensures !Stuck(st)
  {
    var f: Cell, t: Cell := Square(PawnRow(white), 2), Square(PawnRow(white) + Forward(white), 2);
    var p := At(st.l.board, f);
    ShelterStands(st.l.board, white, t, p);
    ShelterStands(Put(st.l.board, t, p), white, f, '.');
    ShelteredKing(TryMove(st.l, f, t), white);
    assert Legal(st.l, white, f, t);
  }

  lemma CalmIsLegal(l: Layout, white: bool, f: Cell, t: Cell, d: nat)
    requires Calm(l.board) && !Reserved(f) && !Reserved(t) && Harmless(At(l.board, f), t)
    requires Holds(l.board, f, white) && Attacks(l, At(l.board, f), f, t) && d >= 2
    ensures LegalTo(l, white, f, t, d) == Yes
  {
    CalmKings(l);
    CalmTrial(l.board, f, t);
    ShelteredKing(TryMove(l, f, t), white);
    RanksApartNeverHangs(l, white, f, t);
    LegalExact(l, white, f, t, d);
  }

  /** The move made and the turn passed. */
  function Next(st: State, f: Cell, t: Cell): State {
    Execute(st, f, t).(whiteToMove := !st.whiteToMove)
  }

  ghost predicate Quiet(st: State, f: Cell, t: Cell) {
    && Calm(st.l.board) && !st.gameOver && !Reserved(f) && !Reserved(t) && Harmless(At(st.l.board, f), t)
    && Holds(st.l.board, f, st.whiteToMove) && Attacks(st.l, At(st.l.board, f), f, t)
    && (EnPassantCapture(st.l.board, f, t) ==> !Reserved(Passed(f, t)))
  }

  /** A quiet move is made by whoever makes it, and leaves a calm position. */
  lemma QuietMove(st: State, f: Cell, t: Cell, d: nat)
    requires Quiet(st, f, t) && d >= 2
    ensures Calm(Next(st, f, t).l.board)
    ensures !(IsPawn(At(st.l.board, f)) && LastRank(t)) ==> MoveTo(st, f, t, d) == Some((Next(st, f, t), Success))
    ensures IsPawn(At(st.l.board, f)) && LastRank(t) ==> MoveTo(st, f, t, d) == Some((Execute(st, f, t), Promotion))
    ensures EngineTo(st, f, t, d) == Some((Next(st, f, t), Some(At(st.l.board, t))))
  {
    CalmIsLegal(st.l, st.whiteToMove, f, t, d);
    CalmExecuted(st.l.board, f, t);
    CalmSettles(Next(st, f, t), d);
  }

  lemma CalmCrowned(b: Board, t: Cell, white: bool, kind: char)
    requires Calm(b) && !Reserved(t) && PromotionKind(kind) && kind !in "nN"
    ensures Calm(Put(b, t, Crowned(white, kind)))
  {
    CrownedIsNoKing(white, kind);
    assert Harmless(Crowned(white, kind), t);
    CalmStands(b, t, Crowned(white, kind));
  }

  lemma CalmSettles(st: State, d: nat)
    requires Calm(st.l.board) && d >= 2
    ensures CheckOver(st, d) == Some(st)
  {
    CalmKings(st.l);
    ShelteredHasMove(st, st.whiteToMove);
    RanksApartSettles(st, d);
  }

  /** A quiet move to the last rank can be crowned. */
  lemma QuietPromotion(st: State, f: Cell, t: Cell, kind: char, d: nat)
    requires Quiet(st, f, t) && IsPawn(At(st.l.board, f)) && LastRank(t) && PromotionKind(kind) && kind !in "nN" && d >= 2
    ensures PromoteTo(Execute(st, f, t), t, kind, d) ==
      Some(Crown(Execute(st, f, t), t, kind).(whiteToMove := !st.whiteToMove))
  {
    var st1 := Execute(st, f, t);
    CalmExecuted(st.l.board, f, t);
    CalmCrowned(st1.l.board, t, IsWhite(At(st1.l.board, t)), kind);
    CalmSettles(Crown(st1, t, kind).(whiteToMove := !st.whiteToMove), d);
  }

  lemma StartIsCalm()
    ensures Calm(START_BOARD)
  {
    StartSheltered(START_BOARD, true);
    StartSheltered(START_BOARD, false);
  }

  lemma StartSheltered(b: Board, white: bool)
    requires b == START_BOARD
    ensures Sheltered(b, white)
  {
    StartKings();
    forall s: Cell | Guards(white, s)
      ensures Holds(b, s, white)
    {
      assert At(b, s) == b[s.row][s.col];
    }
  }
}
