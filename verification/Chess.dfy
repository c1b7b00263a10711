/**
  The rules of chess, asked of a board and the moves that led to it: pieces see along rays, pawns
  attack the two squares diagonally ahead, a king castles with a rook if both have stood still
  since the start, a move is legal if the board after it leaves the mover's king unattacked. The
  theorems say exactly where the code's legality test departs from them. What the rules share
  with the model of the code is what a move does to a board (ExecutedBoard), which king moves
  count as castling (CastlingShape), and that a path is clear if all squares between are empty
  (PathClear). They read neither the code's flags nor its en-passant field.
 */
module Chess {
  import opened Squares
  import opened Rules
  import opened Settling
  import opened GameState
  import opened Positions
  import opened Runs
  import opened Games

  // --------------------------------------------------------------- the reference

  datatype Direction = Direction(dr: int, dc: int)

  predicate IsDirection(v: Direction) {
    -1 <= v.dr <= 1 && -1 <= v.dc <= 1 && (v.dr != 0 || v.dc != 0)
  }

  predicate IsStraight(v: Direction) { v.dr == 0 || v.dc == 0 }

  function Scale(u: int, k: nat): int { if u == 0 then 0 else if u > 0 then k else 0 - k }

  /** k steps from s in a direction. */
  function Ray(s: Cell, v: Direction, k: nat): Square { Square(s.row + Scale(v.dr, k), s.col + Scale(v.dc, k)) }

  /** t is the n-th square of the ray, and those before it are empty. */
  ghost predicate SeesAt(b: Board, s: Cell, v: Direction, n: nat, t: Cell) {
    n > 0 && Ray(s, v, n) == t
    && forall k :: 0 < k < n ==> Ray(s, v, k).OnBoard() && At(b, Ray(s, v, k)) == '.'
  }

  ghost predicate Sees(b: Board, s: Cell, straight: bool, diagonal: bool, t: Cell) {
    exists v: Direction, n: nat ::
      IsDirection(v) && (if IsStraight(v) then straight else diagonal) && SeesAt(b, s, v, n, t)
  }

  /** The piece on s attacks t, as chess has it, whatever stands on t. */
  ghost predicate ChessAttacks(b: Board, s: Cell, t: Cell) {
    match At(b, s)
    case 'P' => t.row == s.row - 1 && Abs(t.col - s.col) == 1
    case 'p' => t.row == s.row + 1 && Abs(t.col - s.col) == 1
    case 'N' | 'n' => KnightStep(s, t)
    case 'K' | 'k' => s != t && KingStep(s, t)
    case 'R' | 'r' => Sees(b, s, true, false, t)
    case 'B' | 'b' => Sees(b, s, false, true, t)
    case 'Q' | 'q' => Sees(b, s, true, true, t)
    case _ => false
  }

  /** The piece on s is an enemy of that side, and attacks t. */
  ghost predicate Threatens(b: Board, white: bool, s: Cell, t: Cell) {
    Holds(b, s, !white) && ChessAttacks(b, s, t)
  }

  ghost predicate Threatened(b: Board, white: bool, t: Cell) {
    exists s: Cell :: Threatens(b, white, s, t)
  }

  ghost predicate ChessCheck(b: Board, white: bool) {
    KingCell(b, white).Some? && Threatened(b, white, KingCell(b, white).value)
  }

  // ------------------------------------------------------ rays and clear lines

  function DirectionTo(f: Cell, t: Cell): Direction { Direction(UnitStep(t.row - f.row), UnitStep(t.col - f.col)) }

  function Distance(f: Cell, t: Cell): nat {
    if Abs(t.row - f.row) > Abs(t.col - f.col) then Abs(t.row - f.row) else Abs(t.col - f.col)
  }

  lemma RayEnds(f: Cell, t: Cell)
    requires OnLine(f, t) && f != t
    ensures IsDirection(DirectionTo(f, t)) && Distance(f, t) > 0 && Ray(f, DirectionTo(f, t), Distance(f, t)) == t
    ensures IsStraight(DirectionTo(f, t)) <==> Straight(f, t)
  {
  }

  lemma RayIsBetween(f: Cell, t: Cell, k: nat)
    requires OnLine(f, t) && 0 < k < Distance(f, t)
    ensures Ray(f, DirectionTo(f, t), k).OnBoard() && Between(f, Ray(f, DirectionTo(f, t), k), t)
  {
  }

  lemma BetweenIsOnRay(f: Cell, x: Cell, t: Cell)
    requires Between(f, x, t)
    ensures OnLine(f, t) && 0 < Distance(f, x) < Distance(f, t) && Ray(f, DirectionTo(f, t), Distance(f, x)) == x
  {
  }

  lemma RayIsLine(s: Cell, v: Direction, n: nat, t: Cell)
    requires IsDirection(v) && n > 0 && Ray(s, v, n) == t
    ensures OnLine(s, t) && s != t && v == DirectionTo(s, t) && n == Distance(s, t)
  {
  }

  /** Seeing along a ray is having a clear line. */
  lemma SeesIsClear(b: Board, s: Cell, straight: bool, diagonal: bool, t: Cell)
    ensures Sees(b, s, straight, diagonal, t) <==>
      s != t && ((straight && Straight(s, t)) || (diagonal && Diagonal(s, t))) && PathClear(b, s, t)
  {
    if Sees(b, s, straight, diagonal, t) {
      var v: Direction, n: nat :|
        IsDirection(v) && (if IsStraight(v) then straight else diagonal) && SeesAt(b, s, v, n, t);
      RayIsLine(s, v, n, t);
      RayEnds(s, t);
      forall x: Cell | Between(s, x, t)
        ensures At(b, x) == '.'
      {
        BetweenIsOnRay(s, x, t);
        assert At(b, Ray(s, v, Distance(s, x))) == '.';
      }
    }
    if s != t && ((straight && Straight(s, t)) || (diagonal && Diagonal(s, t))) && PathClear(b, s, t) {
      RayEnds(s, t);
      forall k: nat | 0 < k < Distance(s, t)
        ensures Ray(s, DirectionTo(s, t), k).OnBoard() && At(b, Ray(s, DirectionTo(s, t), k)) == '.'
      {
        RayIsBetween(s, t, k);
      }
      assert SeesAt(b, s, DirectionTo(s, t), Distance(s, t), t);
      assert !(Straight(s, t) && Diagonal(s, t));
    }
  }

  // ------------------------------------------------------------- attacks and check

  /** Pawns aside, the code's pieces attack as in chess, occupied square or not. */
  lemma PieceAttacks(l: Layout, s: Cell, t: Cell)
    requires !IsPawn(At(l.board, s)) && !Barred(l.board, At(l.board, s), s, t)
    ensures Attacks(l, At(l.board, s), s, t) <==> ChessAttacks(l.board, s, t)
  {
    SeesIsClear(l.board, s, true, false, t);
    SeesIsClear(l.board, s, false, true, t);
    SeesIsClear(l.board, s, true, true, t);
  }

  /** On a square that an enemy piece occupies, pawns do too. */
  lemma OccupiedAttacks(l: Layout, white: bool, s: Cell, t: Cell)
    requires Holds(l.board, s, !white) && Holds(l.board, t, white)
    ensures Attacks(l, At(l.board, s), s, t) <==> ChessAttacks(l.board, s, t)
  {
    if !IsPawn(At(l.board, s)) { PieceAttacks(l, s, t); }
  }

  /** So the code's check is the check of chess, on every board. */
  lemma CheckIsChess(l: Layout, white: bool)
    ensures Checked(l, white) <==> ChessCheck(l.board, white)
  {
    if KingCell(l.board, white).Some? {
      var k := KingCell(l.board, white).value;
      forall s: Cell | Holds(l.board, s, !white)
        ensures Attacks(l, At(l.board, s), s, k) <==> Threatens(l.board, white, s, k)
      {
        OccupiedAttacks(l, white, s, k);
      }
    }
  }

  // ------------------------------------------------------------ the legal moves of chess

  /** The last move was a pawn's, two rows along its file, over this square. */
  predicate JustPassed(h: seq<Record>, s: Cell) {
    h != [] &&
    var r := h[|h| - 1];
    && (r.piece == 'P' || r.piece == 'p') && r.from.col == s.col == r.to.col
    && Abs(r.from.row - s.row) == 1 == Abs(r.to.row - s.row) && r.from.row != r.to.row
  }

  /** One step ahead, two from the pawn's own row, or sideways onto an enemy or the square just passed over. */
  ghost predicate ChessPawnMoves(b: Board, h: seq<Record>, white: bool, f: Cell, t: Cell) {
    || (t == Square(f.row + Forward(white), f.col) && At(b, t) == '.')
    || (f.row == PawnRow(white) && t == Square(f.row + 2 * Forward(white), f.col)
        && At(b, Square(f.row + Forward(white), f.col)) == '.' && At(b, t) == '.')
    || (ChessAttacks(b, f, t) && (Holds(b, t, !white) || JustPassed(h, t)))
  }

  ghost predicate ChessMoves(b: Board, h: seq<Record>, white: bool, f: Cell, t: Cell) {
    && Holds(b, f, white) && !Holds(b, t, white)
    && if IsPawn(At(b, f)) then ChessPawnMoves(b, h, white, f, t) else ChessAttacks(b, f, t)
  }

  /** King and rook stand where they started, and have stood there all along. */
  ghost predicate ChessCastles(b: Board, h: seq<Record>, white: bool, f: Cell, t: Cell)
    requires TwoFiles(f, t)
  {
    var corner := CornerOf(white, t.col > f.col);
    && f == HomeOf(white) && At(b, corner) == RookOf(white) && Unspoilt(h, white, t.col > f.col)
    && !ChessCheck(b, white) && PathClear(b, f, corner)
    && forall x: Cell :: Between(f, x, t) ==> !Threatened(b, white, x)
  }

  ghost predicate ChessLegal(b: Board, h: seq<Record>, white: bool, f: Cell, t: Cell) {
    && Holds(b, f, white)
    && (if CastlingShape(b, f, t) then ChessCastles(b, h, white, f, t) else ChessMoves(b, h, white, f, t))
    && !ChessCheck(ExecutedBoard(b, f, t), white)
  }

  /** Castling aside, on every board the code's pieces move as in chess. */
  lemma MovesAreChess(l: Layout, h: seq<Record>, white: bool, f: Cell, t: Cell)
    requires !CastlingShape(l.board, f, t) && (EnPassantCapture(l.board, f, t) ==> l.ep == EpOf(h))
    ensures MayMove(l, white, f, t) <==> ChessMoves(l.board, h, white, f, t)
  {
    if Holds(l.board, f, white) && !Barred(l.board, At(l.board, f), f, t) {
      if !IsPawn(At(l.board, f)) {
        PieceAttacks(l, f, t);
      } else if f.row == PawnRow(white) && f.col == t.col && t.row == f.row + 2 * Forward(white) {
        OneSquareBetween(l.board, f, t, white);
      }
    }
  }

  lemma OneSquareBetween(b: Board, f: Cell, t: Cell, white: bool)
    requires f.row == PawnRow(white) && f.col == t.col && t.row == f.row + 2 * Forward(white)
    ensures PathClear(b, f, t) <==> At(b, Square(f.row + Forward(white), f.col)) == '.'
  {
    assert Between(f, Square(f.row + Forward(white), f.col), t);
  }

  /** Castling and en passant aside, on every board the code's legal moves are those of chess. */
  lemma OrdinaryLegalIsChess(l: Layout, h: seq<Record>, white: bool, f: Cell, t: Cell)
    requires !CastlingShape(l.board, f, t) && !EnPassantCapture(l.board, f, t)
    ensures Legal(l, white, f, t) <==> ChessLegal(l.board, h, white, f, t)
  {
    MovesAreChess(l, h, white, f, t);
    if MayMove(l, white, f, t) {
      assert ExecutedBoard(l.board, f, t) == Trial(l.board, f, t);
      CheckIsChess(TryMove(l, f, t), white);
    }
  }

  // ------------------------------------------------------------------- en passant

  /** The passed pawn itself attacks the mover's king. */
  ghost predicate PassedPawnChecks(l: Layout, white: bool, f: Cell, t: Cell) {
    KingCell(l.board, white).Some? && ChessAttacks(l.board, Passed(f, t), KingCell(l.board, white).value)
  }

  /** After the capture some other enemy piece attacks the king, and did so with the passed pawn in place. */
  ghost predicate AnotherChecks(l: Layout, white: bool, f: Cell, t: Cell) {
    KingCell(l.board, white).Some?
    && exists s: Cell :: s != Passed(f, t) && Threatens(Trial(l.board, f, t), white, s, KingCell(l.board, white).value)
  }

  lemma PawnMovesKeepKing(l: Layout, white: bool, f: Cell, t: Cell)
    requires Sound(l, white) && MayMove(l, white, f, t) && EnPassantCapture(l.board, f, t)
    ensures KingCell(TryMove(l, f, t).board, white) == KingCell(l.board, white)
    ensures KingCell(ExecutedBoard(l.board, f, t), white) == KingCell(l.board, white)
  {
    TakesEnPassant(l, white, f, t);
    EnPassantCells(l, white, f, t);
    TrialCells(l.board, f, t);
    if KingCell(l.board, white).Some? {
      var k := KingCell(l.board, white).value;
      KingCellIs(TryMove(l, f, t).board, white, k);
      KingCellIs(ExecutedBoard(l.board, f, t), white, k);
    }
  }

  lemma TrialVerdict(l: Layout, white: bool, f: Cell, t: Cell)
    requires Sound(l, white) && MayMove(l, white, f, t) && EnPassantCapture(l.board, f, t)
    ensures Checked(TryMove(l, f, t), white) <==>
      PassedPawnChecks(l, white, f, t) || AnotherChecks(l, white, f, t)
  {
    var T := TryMove(l, f, t);
    TakesEnPassant(l, white, f, t);
    TrialCells(l.board, f, t);
    PawnMovesKeepKing(l, white, f, t);
    CheckIsChess(T, white);
    if PassedPawnChecks(l, white, f, t) {
      assert Threatens(T.board, white, Passed(f, t), KingCell(l.board, white).value);
    }
  }

  /** Once the passed pawn is gone, an attack is an old one or comes through its square. */
  lemma AttackAfterCapture(l: Layout, l': Layout, white: bool, f: Cell, t: Cell, k: Cell, s: Cell)
    requires Sound(l, white) && MayMove(l, white, f, t) && EnPassantCapture(l.board, f, t)
    requires l' == l.(board := ExecutedBoard(l.board, f, t)) && KingCell(l.board, white) == Some(k)
    requires Threatens(l'.board, white, s, k)
    ensures s != Passed(f, t)
    ensures Threatens(Trial(l.board, f, t), white, s, k) || SeesThrough(l, white, f, t, k, s)
  {
    var T := TryMove(l, f, t);
    TakesEnPassant(l, white, f, t);
    EnPassantCells(l, white, f, t);
    TrialCells(l.board, f, t);
    OccupiedAttacks(l', white, s, k);
    OccupiedAttacks(T, white, s, k);
    if Between(s, Passed(f, t), k) {
      OnlySlidersReachFar(l', At(l'.board, s), s, Passed(f, t), k);
    } else {
      StillAttacks(T, l', s, s, k);
    }
  }

  lemma OldAttackStays(l: Layout, l': Layout, white: bool, f: Cell, t: Cell, k: Cell, s: Cell)
    requires Sound(l, white) && MayMove(l, white, f, t) && EnPassantCapture(l.board, f, t)
    requires l' == l.(board := ExecutedBoard(l.board, f, t)) && KingCell(l.board, white) == Some(k)
    requires s != Passed(f, t)
    requires Threatens(Trial(l.board, f, t), white, s, k) || SeesThrough(l, white, f, t, k, s)
    ensures Threatens(l'.board, white, s, k)
  {
    var T := TryMove(l, f, t);
    TakesEnPassant(l, white, f, t);
    EnPassantCells(l, white, f, t);
    TrialCells(l.board, f, t);
    if SeesThrough(l, white, f, t, k, s) {
      SeenThroughIsOpen(l, white, f, t, k, s);
      OpenLineAttacks(l', white, s, k);
    } else {
      OccupiedAttacks(T, white, s, k);
      StillAttacks(l', T, s, s, k);
    }
    OccupiedAttacks(l', white, s, k);
  }

  lemma ExecutedVerdict(l: Layout, white: bool, f: Cell, t: Cell)
    requires Sound(l, white) && MayMove(l, white, f, t) && EnPassantCapture(l.board, f, t)
    ensures ChessCheck(ExecutedBoard(l.board, f, t), white) <==>
      Exposes(l, white, f, t) || AnotherChecks(l, white, f, t)
  {
    var l' := l.(board := ExecutedBoard(l.board, f, t));
    PawnMovesKeepKing(l, white, f, t);
    if KingCell(l.board, white).Some? {
      var k := KingCell(l.board, white).value;
      if s: Cell :| Threatens(l'.board, white, s, k) { AttackAfterCapture(l, l', white, f, t, k, s); }
      if s: Cell :| s != Passed(f, t) && Threatens(Trial(l.board, f, t), white, s, k) {
        OldAttackStays(l, l', white, f, t, k, s);
      }
      if s: Cell :| SeesThrough(l, white, f, t, k, s) { OldAttackStays(l, l', white, f, t, k, s); }
    }
  }

  /**
    En passant: the code and chess disagree exactly when nothing else gives check and the
    passed pawn checks the king (the code refuses to take it) or shields it (the code takes it),
    but not both.
   */
  lemma EnPassantLegalVersusChess(l: Layout, h: seq<Record>, white: bool, f: Cell, t: Cell)
    requires Sound(l, white) && l.ep == EpOf(h)
    requires ChessMoves(l.board, h, white, f, t) && EnPassantCapture(l.board, f, t)
    ensures Legal(l, white, f, t) <==> !PassedPawnChecks(l, white, f, t) && !AnotherChecks(l, white, f, t)
    ensures ChessLegal(l.board, h, white, f, t) <==> !Exposes(l, white, f, t) && !AnotherChecks(l, white, f, t)
  {
    MovesAreChess(l, h, white, f, t);
    TrialVerdict(l, white, f, t);
    ExecutedVerdict(l, white, f, t);
  }

  // --------------------------------------------------------------------- castling

  /** An enemy pawn attacks the empty square x, which the code's attack test overlooks. */
  ghost predicate PawnBeside(b: Board, white: bool, x: Cell) {
    exists s: Cell :: IsPawn(At(b, s)) && Threatens(b, white, s, x)
  }

  /** A pawn that could step onto the passed-over square already gives check. */
  lemma NoPawnSteps(l: Layout, white: bool, f: Cell, t: Cell, s: Cell)
    requires Sound(l, white) && CastlingShape(l.board, f, t) && f == HomeOf(white) && At(l.board, f) == KingOf(white)
    requires !ChessCheck(l.board, white) && Holds(l.board, s, !white) && IsPawn(At(l.board, s))
    requires At(l.board, PassedOver(f, t)) == '.'
    ensures !Attacks(l, At(l.board, s), s, PassedOver(f, t))
  {
    assert !Threatens(l.board, white, s, f);
  }

  /** The code sees the attacks on the passed-over square that are not a pawn's. */
  lemma PassedOverAttacks(l: Layout, white: bool, f: Cell, t: Cell, s: Cell)
    requires Sound(l, white) && CastlingShape(l.board, f, t) && f == HomeOf(white) && At(l.board, f) == KingOf(white)
    requires !ChessCheck(l.board, white) && Holds(l.board, s, !white) && At(l.board, PassedOver(f, t)) == '.'
    ensures Attacks(l, At(l.board, s), s, PassedOver(f, t)) <==>
      Threatens(l.board, white, s, PassedOver(f, t)) && !IsPawn(At(l.board, s))
  {
    if IsPawn(At(l.board, s)) { NoPawnSteps(l, white, f, t, s); } else { PieceAttacks(l, s, PassedOver(f, t)); }
  }

  /** On the passed-over square the two attack tests differ by the pawns beside it. */
  lemma PassedOverVersusChess(l: Layout, white: bool, f: Cell, t: Cell)
    requires Sound(l, white) && CastlingShape(l.board, f, t) && f == HomeOf(white) && At(l.board, f) == KingOf(white)
    requires !ChessCheck(l.board, white) && At(l.board, PassedOver(f, t)) == '.'
    ensures Threatened(l.board, white, PassedOver(f, t)) <==>
      AttackedBy(l, PassedOver(f, t), !white) || PawnBeside(l.board, white, PassedOver(f, t))
  {
    var x := PassedOver(f, t);
    forall s: Cell | Holds(l.board, s, !white)
      ensures Attacks(l, At(l.board, s), s, x) <==> Threatens(l.board, white, s, x) && !IsPawn(At(l.board, s))
    {
      PassedOverAttacks(l, white, f, t, s);
    }
  }

  lemma MayCastleVersusChess(l: Layout, h: seq<Record>, white: bool, f: Cell, t: Cell)
    requires Sound(l, white) && Remembers(l, h) && Holds(l.board, f, white) && CastlingShape(l.board, f, t)
    ensures ChessCastles(l.board, h, white, f, t) <==>
      MayCastle(l, white, f, t) && At(l.board, Corner(f, t)) == RookOf(white)
      && !PawnBeside(l.board, white, PassedOver(f, t)) && !CapturedOn(h, Corner(f, t))
  {
    CheckIsChess(l, white);
    if !ChessCheck(l.board, white) && Unmoved(l.moved, white, t.col > f.col) && PathClear(l.board, f, Corner(f, t)) {
      assert f == HomeOf(white) && Between(f, PassedOver(f, t), Corner(f, t));
      PassedOverVersusChess(l, white, f, t);
    }
    if f == HomeOf(white) { CastlingSquares(l, h, white, f, t); }
  }

  lemma CastlingSquares(l: Layout, h: seq<Record>, white: bool, f: Cell, t: Cell)
    requires Remembers(l, h) && TwoFiles(f, t) && f == HomeOf(white)
    ensures Corner(f, t) == CornerOf(white, t.col > f.col)
    ensures Unspoilt(h, white, t.col > f.col) <==>
      Unmoved(l.moved, white, t.col > f.col) && !CapturedOn(h, Corner(f, t))
    ensures forall x: Cell :: Between(f, x, t) <==> x == PassedOver(f, t)
  {
    UnspoiltMeans(l, h, white, t.col > f.col);
  }

  /** The flags see a king or a rook leave, but not a rook taken where it started. */
  lemma UnspoiltMeans(l: Layout, h: seq<Record>, white: bool, kingside: bool)
    requires Remembers(l, h)
    ensures Unspoilt(h, white, kingside) <==>
      Unmoved(l.moved, white, kingside) && !CapturedOn(h, CornerOf(white, kingside))
  {
  }

  /** With the rook in its corner, castling into check is castling into check, rook moved or not. */
  lemma CastledAttack(l: Layout, l': Layout, white: bool, f: Cell, t: Cell, s: Cell)
    requires Sound(l, white) && CastlingMove(At(l.board, f), f, t) && MayMove(l, white, f, t)
    requires At(l.board, Corner(f, t)) == RookOf(white) && l' == l.(board := ExecutedBoard(l.board, f, t))
    requires Holds(l.board, s, !white)
    ensures Attacks(TryMove(l, f, t), At(l.board, s), s, t) <==> Attacks(l', At(l.board, s), s, t)
  {
    var T, p := TryMove(l, f, t), At(l.board, s);
    CastlesFromHome(l, white, f, t);
    ExecutedCells(l, white, f, t);
    TrialCells(l.board, f, t);
    if Attacks(l', p, s, t) {
      assert !Between(s, Corner(f, t), t);
      StillAttacks(T, l', s, s, t);
    }
    if Attacks(T, p, s, t) {
      if Between(s, RookSquare(f, t), t) {
        OnlySlidersReachFar(T, p, s, RookSquare(f, t), t);
        OpenLineAttacks(l, white, s, f);
        AttackMeansChecked(l, white, f, s);
      } else {
        StillAttacks(l', T, s, s, t);
      }
    }
  }

  ghost predicate SameEnemies(b: Board, b': Board, white: bool) {
    forall s: Cell :: Holds(b, s, !white) || Holds(b', s, !white) ==> At(b, s) == At(b', s)
  }

  lemma CastledKingIsAt(l: Layout, white: bool, f: Cell, t: Cell)
    requires Sound(l, white) && CastlingMove(At(l.board, f), f, t) && MayMove(l, white, f, t)
    requires At(l.board, Corner(f, t)) == RookOf(white)
    ensures KingCell(TryMove(l, f, t).board, white) == Some(t) == KingCell(ExecutedBoard(l.board, f, t), white)
    ensures SameEnemies(l.board, TryMove(l, f, t).board, white) && SameEnemies(l.board, ExecutedBoard(l.board, f, t), white)
  {
    CastlesFromHome(l, white, f, t);
    ExecutedCells(l, white, f, t);
    TrialCells(l.board, f, t);
    assert KingCell(l.board, white) == Some(f);
    KingCellIs(TryMove(l, f, t).board, white, t);
    KingCellIs(ExecutedBoard(l.board, f, t), white, t);
  }

  lemma CastledCheck(l: Layout, white: bool, f: Cell, t: Cell)
    requires Sound(l, white) && CastlingMove(At(l.board, f), f, t) && MayMove(l, white, f, t)
    requires At(l.board, Corner(f, t)) == RookOf(white)
    ensures Checked(TryMove(l, f, t), white) <==> ChessCheck(ExecutedBoard(l.board, f, t), white)
  {
    var l' := l.(board := ExecutedBoard(l.board, f, t));
    CastledKingIsAt(l, white, f, t);
    forall s: Cell | Holds(l.board, s, !white)
      ensures Attacks(TryMove(l, f, t), At(l.board, s), s, t) <==> Attacks(l', At(l.board, s), s, t)
    {
      CastledAttack(l, l', white, f, t, s);
    }
    CheckIsChess(l', white);
  }

  /**
    Castling: every castling move of chess is legal for the code, which also castles without
    the rook, with another rook than the one that was taken, and across a square that a pawn attacks.
   */
  lemma CastlingVersusChess(l: Layout, h: seq<Record>, white: bool, f: Cell, t: Cell)
    requires Sound(l, white) && Remembers(l, h) && Holds(l.board, f, white) && CastlingShape(l.board, f, t)
    ensures ChessLegal(l.board, h, white, f, t) <==>
      && Legal(l, white, f, t) && At(l.board, Corner(f, t)) == RookOf(white)
      && !PawnBeside(l.board, white, PassedOver(f, t)) && !CapturedOn(h, Corner(f, t))
  {
    MayCastleVersusChess(l, h, white, f, t);
    if MayMove(l, white, f, t) && At(l.board, Corner(f, t)) == RookOf(white) { CastledCheck(l, white, f, t); }
  }

  // ------------------------------------------------------------------ all moves

  /**
    Everything that chess asks of a castling move but for the pawns beside its path and for the
    rook, of which the flags only tell that none has left the corner.
   */
  ghost predicate CastlesButFor(l: Layout, white: bool, f: Cell, t: Cell)
    requires TwoFiles(f, t)
  {
    && Holds(l.board, f, white) && !ChessCheck(l.board, white)
    && Unmoved(l.moved, white, t.col > f.col) && PathClear(l.board, f, Corner(f, t))
    && (forall s: Cell :: Threatens(l.board, white, s, PassedOver(f, t)) ==> IsPawn(At(l.board, s)))
    && !ChessCheck(Trial(l.board, f, t), white)
  }

  /** The code castles exactly on those terms. */
  lemma CodeCastles(l: Layout, white: bool, f: Cell, t: Cell)
    requires Sound(l, white) && Holds(l.board, f, white) && CastlingShape(l.board, f, t)
    ensures Legal(l, white, f, t) <==> CastlesButFor(l, white, f, t)
  {
    CheckIsChess(l, white);
    CheckIsChess(TryMove(l, f, t), white);
    if !ChessCheck(l.board, white) && Unmoved(l.moved, white, t.col > f.col) && PathClear(l.board, f, Corner(f, t)) {
      assert f == HomeOf(white) && Between(f, PassedOver(f, t), Corner(f, t));
      forall s: Cell | Holds(l.board, s, !white)
        ensures Attacks(l, At(l.board, s), s, PassedOver(f, t)) <==>
          Threatens(l.board, white, s, PassedOver(f, t)) && !IsPawn(At(l.board, s))
      {
        PassedOverAttacks(l, white, f, t, s);
      }
    }
  }

  /** A castling move that chess forbids for its rook, or for a pawn beside the king's path. */
  ghost predicate CastlesWrongly(l: Layout, h: seq<Record>, white: bool, f: Cell, t: Cell)
    requires TwoFiles(f, t)
  {
    && CastlesButFor(l, white, f, t)
    && (|| At(l.board, Corner(f, t)) != RookOf(white)
        || CapturedOn(h, Corner(f, t))
        || PawnBeside(l.board, white, PassedOver(f, t)))
  }

  /** What sets the code's legality apart from that of chess. */
  ghost predicate Departs(l: Layout, h: seq<Record>, white: bool, f: Cell, t: Cell) {
    if CastlingShape(l.board, f, t) then CastlesWrongly(l, h, white, f, t)
    else
      && EnPassantCapture(l.board, f, t) && ChessMoves(l.board, h, white, f, t) && !AnotherChecks(l, white, f, t)
      && PassedPawnChecks(l, white, f, t) != Exposes(l, white, f, t)
  }

  /**
    The code's legality test is that of chess, move by move, exactly where it does not depart:
    in its plain form, and at every depth at which it answers.
   */
  lemma LegalVersusChess(l: Layout, h: seq<Record>, white: bool, f: Cell, t: Cell, d: nat)
    requires Sound(l, white) && Remembers(l, h)
    ensures (Legal(l, white, f, t) <==> ChessLegal(l.board, h, white, f, t)) <==> !Departs(l, h, white, f, t)
    ensures LegalTo(l, white, f, t, d) != Unsettled ==>
      ((LegalTo(l, white, f, t, d) == Yes <==> ChessLegal(l.board, h, white, f, t)) <==> !Departs(l, h, white, f, t))
  {
    LegalMeans(l, white, f, t, d);
    if CastlingShape(l.board, f, t) {
      if Holds(l.board, f, white) {
        CastlingVersusChess(l, h, white, f, t);
        CodeCastles(l, white, f, t);
      }
    } else if EnPassantCapture(l.board, f, t) {
      MovesAreChess(l, h, white, f, t);
      if ChessMoves(l.board, h, white, f, t) { EnPassantLegalVersusChess(l, h, white, f, t); }
    } else {
      OrdinaryLegalIsChess(l, h, white, f, t);
    }
  }

  /** So it is at every position of every run, the rules of chess asked of the board and the moves so far. */
  lemma RunsVersusChess(plies: seq<Ply>, d: nat, f: Cell, t: Cell, d': nat)
    requires Run(plies, d).Some?
    ensures var st := Run(plies, d).value;
      && ((Legal(st.l, st.whiteToMove, f, t) <==> ChessLegal(st.l.board, st.history, st.whiteToMove, f, t))
          <==> !Departs(st.l, st.history, st.whiteToMove, f, t))
      && (LegalTo(st.l, st.whiteToMove, f, t, d') != Unsettled ==>
            ((LegalTo(st.l, st.whiteToMove, f, t, d') == Yes <==>
                ChessLegal(st.l.board, st.history, st.whiteToMove, f, t))
             <==> !Departs(st.l, st.history, st.whiteToMove, f, t)))
  {
    RunsAreReached(plies, d);
    var st := Run(plies, d).value;
    LegalVersusChess(st.l, st.history, st.whiteToMove, f, t, d');
  }

  /** And there a castling move is one of chess exactly if its own rook stands in the corner and no pawn beside its path. */
  lemma RunsCastleLikeChess(plies: seq<Ply>, d: nat, f: Cell, t: Cell)
    requires Run(plies, d).Some?
    requires Holds(Run(plies, d).value.l.board, f, Run(plies, d).value.whiteToMove)
    requires CastlingShape(Run(plies, d).value.l.board, f, t)
    ensures var st := Run(plies, d).value;
      ChessLegal(st.l.board, st.history, st.whiteToMove, f, t) <==>
        && Legal(st.l, st.whiteToMove, f, t) && At(st.l.board, Corner(f, t)) == RookOf(st.whiteToMove)
        && !PawnBeside(st.l.board, st.whiteToMove, PassedOver(f, t)) && !CapturedOn(st.history, Corner(f, t))
  {
    RunsAreReached(plies, d);
    var st := Run(plies, d).value;
    CastlingVersusChess(st.l, st.history, st.whiteToMove, f, t);
  }

  // -------------------------------------------------------------------- game end

  ghost predicate ChessStuck(st: State) {
    forall f: Cell, t: Cell :: !ChessLegal(st.l.board, st.history, st.whiteToMove, f, t)
  }

  /** Taking the checking pawn en passant would be legal, and the code refuses it. */
  ghost predicate Refused(l: Layout, h: seq<Record>, white: bool, f: Cell, t: Cell) {
    && EnPassantCapture(l.board, f, t) && ChessLegal(l.board, h, white, f, t) && PassedPawnChecks(l, white, f, t)
  }

  /** Whatever chess allows and the code does not is an en-passant capture. */
  lemma RefusedIsPassant(l: Layout, h: seq<Record>, white: bool, f: Cell, t: Cell)
    requires Sound(l, white) && Remembers(l, h) && !EnPassantCapture(l.board, f, t)
    ensures ChessLegal(l.board, h, white, f, t) ==> Legal(l, white, f, t)
  {
    if CastlingShape(l.board, f, t) {
      if Holds(l.board, f, white) { CastlingVersusChess(l, h, white, f, t); }
    } else {
      OrdinaryLegalIsChess(l, h, white, f, t);
    }
  }

  lemma RefusedMove(l: Layout, h: seq<Record>, white: bool, f: Cell, t: Cell)
    requires Sound(l, white) && Remembers(l, h)
    ensures Refused(l, h, white, f, t) <==> ChessLegal(l.board, h, white, f, t) && !Legal(l, white, f, t)
    ensures Refused(l, h, white, f, t) ==> Checked(l, white)
  {
    if !EnPassantCapture(l.board, f, t) {
      RefusedIsPassant(l, h, white, f, t);
    } else if ChessLegal(l.board, h, white, f, t) {
      EnPassantLegalVersusChess(l, h, white, f, t);
      MovesAreChess(l, h, white, f, t);
      TakesEnPassant(l, white, f, t);
      CheckIsChess(l, white);
      if PassedPawnChecks(l, white, f, t) {
        assert Threatens(l.board, white, Passed(f, t), KingCell(l.board, white).value);
      }
    }
  }

  /**
    The code finds the side to move stuck too early exactly when taking the checking pawn en
    passant was its only way out, and then it records a loss; and chess has the side stuck
    exactly when every move that the code allows departs and it refuses none that chess has.
   */
  lemma EndVersusChess(st: State)
    requires Sound(st.l, st.whiteToMove) && Remembers(st.l, st.history)
    ensures Stuck(st) ==>
      (ChessStuck(st) <==> !exists f: Cell, t: Cell :: Refused(st.l, st.history, st.whiteToMove, f, t))
    ensures Stuck(st) && !ChessStuck(st) ==> ResultOf(st) == if st.whiteToMove then BlackWins else WhiteWins
    ensures ChessStuck(st) <==>
      && (forall f: Cell, t: Cell :: Legal(st.l, st.whiteToMove, f, t) ==>
            Departs(st.l, st.history, st.whiteToMove, f, t))
      && !exists f: Cell, t: Cell :: Refused(st.l, st.history, st.whiteToMove, f, t)
  {
    forall f: Cell, t: Cell
      ensures Refused(st.l, st.history, st.whiteToMove, f, t) <==>
        ChessLegal(st.l.board, st.history, st.whiteToMove, f, t) && !Legal(st.l, st.whiteToMove, f, t)
      ensures Refused(st.l, st.history, st.whiteToMove, f, t) ==> Checked(st.l, st.whiteToMove)
      ensures Legal(st.l, st.whiteToMove, f, t) ==>
        (Departs(st.l, st.history, st.whiteToMove, f, t) <==>
           !ChessLegal(st.l.board, st.history, st.whiteToMove, f, t))
    {
      RefusedMove(st.l, st.history, st.whiteToMove, f, t);
      LegalVersusChess(st.l, st.history, st.whiteToMove, f, t, 0);
    }
  }
}
