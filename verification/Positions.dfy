/** What one legal move does to a position: the invariant it keeps, king safety and material. */
module Positions {
  import opened Squares
  import opened Rules
  import opened Settling
  import opened GameState

  // ------------------------------------------------------------ the invariant

  /**
    The en-passant target, for the side about to move: an empty square, passed over
    a moment ago by the enemy pawn that stands just beyond it.
   */
  predicate PassedPawn(l: Layout, white: bool) {
    l.ep.Some? ==>
      var t := l.ep.value;
      && t.row == (if white then 2 else 5)
      && At(l.board, t) == '.'
      && At(l.board, Square(t.row - Forward(white), t.col)) == (if white then 'p' else 'P')
  }

  ghost predicate Sound(l: Layout, white: bool) {
    SoleKings(l.board) && HomeKings(l) && PassedPawn(l, white)
  }

  predicate PromotionKind(c: char) { c in "qrbnQRBN" }

  /** What a pawn of that colour becomes. */
  function Crowned(white: bool, kind: char): char { if white then ToUpper(kind) else ToLower(kind) }

  /** A completed move: executed and, for a human's pawn on the last rank, crowned. */
  function Played(l: Layout, f: Cell, t: Cell, kind: Option<char>): Layout {
    var p := At(l.board, f);
    var b := ExecutedBoard(l.board, f, t);
    Layout(
      if kind.Some? then Put(b, t, Crowned(IsWhite(p), kind.value)) else b,
      EpAfter(p, f, t),
      FlagsAfter(l.moved, p, f))
  }

  predicate CrownsRightly(l: Layout, f: Cell, t: Cell, kind: Option<char>) {
    kind.Some? ==> PromotionKind(kind.value) && IsPawn(At(l.board, f)) && LastRank(t)
  }

  lemma CrownedIsNoKing(white: bool, kind: char)
    requires PromotionKind(kind)
    ensures Crowned(white, kind) in "QRBNqrbn" && IsWhite(Crowned(white, kind)) == white
  {
  }

  /** A depth at which the test answered at all gives the plain answer. */
  lemma LegalMeans(l: Layout, white: bool, f: Cell, t: Cell, d: nat)
    requires SoleKings(l.board) && HomeKings(l)
    ensures LegalTo(l, white, f, t, d) == Yes ==> Legal(l, white, f, t) && !Hangs(l, white, f, t)
    ensures LegalTo(l, white, f, t, d) == No ==> !Legal(l, white, f, t) && !Hangs(l, white, f, t)
  {
    LegalExact(l, white, f, t, d + 2);
    if LegalTo(l, white, f, t, d) != Unsettled { LegalKeeps(l, white, f, t, d, d + 2); }
  }

  // ----------------------------------------------------------- three kinds of move

  predicate EnPassantCapture(b: Board, f: Cell, t: Cell) {
    IsPawn(At(b, f)) && t.col != f.col && At(b, t) == '.'
  }

  /** The square of the pawn taken en passant. */
  function Passed(f: Cell, t: Cell): Cell { Square(f.row, t.col) }

  lemma CastlesFromHome(l: Layout, white: bool, f: Cell, t: Cell)
    requires SoleKings(l.board) && HomeKings(l) && MayMove(l, white, f, t)
    requires CastlingMove(At(l.board, f), f, t)
    ensures f == HomeOf(white) && t == Square(f.row, if t.col > f.col then 6 else 2)
    ensures CastlingShape(l.board, f, t) && MayCastle(l, white, f, t)
    ensures At(l.board, t) == '.' && At(l.board, RookSquare(f, t)) == '.'
  {
    assert CastlingShape(l.board, f, t);
    assert Between(f, t, Corner(f, t)) && Between(f, RookSquare(f, t), Corner(f, t));
  }

  lemma TakesEnPassant(l: Layout, white: bool, f: Cell, t: Cell)
    requires PassedPawn(l, white) && MayMove(l, white, f, t) && EnPassantCapture(l.board, f, t)
    ensures l.ep == Some(t) && At(l.board, Passed(f, t)) == (if white then 'p' else 'P')
    ensures t.row == f.row + Forward(white) && Abs(t.col - f.col) == 1
  {
  }

  /** The character on a cell after a legal move. */
  function ExecutedAt(b: Board, f: Cell, t: Cell, s: Cell): char {
    if s == f then '.'
    else if s == t then At(b, f)
    else if CastlingMove(At(b, f), f, t) && s == RookSquare(f, t) then At(b, Corner(f, t))
    else if CastlingMove(At(b, f), f, t) && s == Corner(f, t) then '.'
    else if EnPassantCapture(b, f, t) && s == Passed(f, t) then '.'
    else At(b, s)
  }

  lemma ExecutedCells(l: Layout, white: bool, f: Cell, t: Cell)
    requires SoleKings(l.board) && HomeKings(l) && MayMove(l, white, f, t)
    ensures f != t
    ensures forall s: Cell :: At(ExecutedBoard(l.board, f, t), s) == ExecutedAt(l.board, f, t, s)
  {
    if CastlingMove(At(l.board, f), f, t) { CastlesFromHome(l, white, f, t); }
  }

  /** Castling, square by square: the king from e to g with the rook from h to f, or from e to c with the rook from a to d. */
  lemma CastledSquares(l: Layout, white: bool, f: Cell, t: Cell)
    requires SoleKings(l.board) && HomeKings(l) && MayMove(l, white, f, t) && CastlingMove(At(l.board, f), f, t)
    ensures var row, b' := (if white then 7 else 0), ExecutedBoard(l.board, f, t);
      && f == Square(row, 4) && t in {Square(row, 6), Square(row, 2)}
      && (t.col == 6 ==>
            b'[row][4] == '.' && b'[row][5] == l.board[row][7] && b'[row][6] == KingOf(white) && b'[row][7] == '.')
      && (t.col == 2 ==>
            && b'[row][0] == '.' && b'[row][1] == '.' && b'[row][2] == KingOf(white)
            && b'[row][3] == l.board[row][0] && b'[row][4] == '.')
  {
    CastlesFromHome(l, white, f, t);
    ExecutedCells(l, white, f, t);
    var b' := ExecutedBoard(l.board, f, t);
    assert t.col == 2 ==> Between(f, Square(f.row, 1), Corner(f, t));
    assert forall c :: 0 <= c < 8 ==> b'[f.row][c] == At(b', Square(f.row, c));
  }

  /** Where the piece on s stood before the move. */
  function Origin(b: Board, f: Cell, t: Cell, s: Cell): Cell {
    if s == t then f
    else if CastlingMove(At(b, f), f, t) && s == RookSquare(f, t) then Corner(f, t)
    else s
  }

  lemma KingsComeFrom(l: Layout, white: bool, f: Cell, t: Cell, kind: Option<char>, s: Cell)
    requires SoleKings(l.board) && HomeKings(l) && MayMove(l, white, f, t) && CrownsRightly(l, f, t, kind)
    requires IsKing(At(Played(l, f, t, kind).board, s))
    ensures At(l.board, Origin(l.board, f, t, s)) == At(Played(l, f, t, kind).board, s)
    ensures s != f && (CastlingMove(At(l.board, f), f, t) ==> s != Corner(f, t))
  {
    ExecutedCells(l, white, f, t);
    if kind.Some? { CrownedIsNoKing(IsWhite(At(l.board, f)), kind.value); }
    if CastlingMove(At(l.board, f), f, t) { CastlesFromHome(l, white, f, t); }
  }

  lemma KeepsSoleKing(l: Layout, white: bool, f: Cell, t: Cell, kind: Option<char>, king: bool)
    requires SoleKings(l.board) && HomeKings(l) && MayMove(l, white, f, t) && CrownsRightly(l, f, t, kind)
    ensures Unique(Played(l, f, t, kind).board, king)
  {
    var b' := Played(l, f, t, kind).board;
    forall s: Cell | At(b', s) == KingOf(king)
      ensures KingCell(b', king) == Some(s)
    {
      forall r: Cell | At(b', r) == KingOf(king)
        ensures r == s
      {
        KingsComeFrom(l, white, f, t, kind, s);
        KingsComeFrom(l, white, f, t, kind, r);
        assert Some(Origin(l.board, f, t, r)) == KingCell(l.board, king) == Some(Origin(l.board, f, t, s));
      }
      KingCellIs(b', king, s);
    }
  }

  lemma KeepsHomeKings(l: Layout, white: bool, f: Cell, t: Cell, kind: Option<char>)
    requires SoleKings(l.board) && HomeKings(l) && MayMove(l, white, f, t) && CrownsRightly(l, f, t, kind)
    ensures HomeKings(Played(l, f, t, kind))
  {
    var l' := Played(l, f, t, kind);
    forall s: Cell | IsKing(At(l'.board, s)) && !(if At(l'.board, s) == 'K' then l'.moved.wK else l'.moved.bK)
      ensures s == HomeOf(At(l'.board, s) == 'K')
    {
      KingsComeFrom(l, white, f, t, kind, s);
    }
  }

  lemma KeepsPassedPawn(l: Layout, white: bool, f: Cell, t: Cell, kind: Option<char>)
    requires SoleKings(l.board) && HomeKings(l) && MayMove(l, white, f, t) && CrownsRightly(l, f, t, kind)
    ensures PassedPawn(Played(l, f, t, kind), !white)
  {
    var p := At(l.board, f);
    if EpAfter(p, f, t).Some? {
      var mid := EpAfter(p, f, t).value;
      assert Between(f, mid, t);
      ExecutedCells(l, white, f, t);
    }
  }

  /** The position invariant survives every move that passes the legality test. */
  lemma MoveKeepsSound(l: Layout, white: bool, f: Cell, t: Cell, kind: Option<char>)
    requires SoleKings(l.board) && HomeKings(l) && MayMove(l, white, f, t) && CrownsRightly(l, f, t, kind)
    ensures Sound(Played(l, f, t, kind), !white)
  {
    KeepsSoleKing(l, white, f, t, kind, true);
    KeepsSoleKing(l, white, f, t, kind, false);
    KeepsHomeKings(l, white, f, t, kind);
    KeepsPassedPawn(l, white, f, t, kind);
  }

  // ------------------------------------------------------------------ king safety

  /** An attack on an occupied square only depends on the attacker and on what stands between. */
  lemma StillAttacks(l: Layout, l': Layout, s: Cell, s': Cell, target: Cell)
    requires s == s' && At(l'.board, s) == At(l.board, s)
    requires At(l'.board, target) == At(l.board, target) != '.'
    requires forall x: Cell :: Between(s, x, target) && At(l'.board, x) == '.' ==> At(l.board, x) == '.'
    requires Attacks(l', At(l'.board, s), s, target)
    ensures Attacks(l, At(l.board, s), s, target)
  {
  }

  /** A rook, bishop or queen whose line runs through the target. */
  predicate Slides(p: char, s: Cell, target: Cell) {
    || (p in "RrQq" && Straight(s, target))
    || (p in "BbQq" && Diagonal(s, target))
  }

  /**
    Taking en passant uncovers the mover's king: an enemy line piece sees the king
    through the squares that the two pawns leave, and only through those.
   */
  ghost predicate Exposes(l: Layout, white: bool, f: Cell, t: Cell) {
    && EnPassantCapture(l.board, f, t)
    && KingCell(l.board, white).Some?
    && exists s: Cell :: SeesThrough(l, white, f, t, KingCell(l.board, white).value, s)
  }

  ghost predicate SeesThrough(l: Layout, white: bool, f: Cell, t: Cell, k: Cell, s: Cell) {
    && Holds(l.board, s, !white) && Slides(At(l.board, s), s, k)
    && Between(s, Passed(f, t), k)
    && (forall x: Cell :: Between(s, x, k) && x != Passed(f, t) ==> x == f || (x != t && At(l.board, x) == '.'))
  }

  /** A legal move, in a position where the opponent is not in check. */
  ghost predicate SafelyLegal(l: Layout, white: bool, f: Cell, t: Cell, kind: Option<char>) {
    && Sound(l, white) && CrownsRightly(l, f, t, kind)
    && Legal(l, white, f, t) && !Hangs(l, white, f, t)
    && !Checked(l, !white)
  }

  lemma SameKing(l: Layout, white: bool, f: Cell, t: Cell, kind: Option<char>, k: Cell)
    requires SafelyLegal(l, white, f, t, kind) && At(Played(l, f, t, kind).board, k) == KingOf(white)
    ensures KingCell(TryMove(l, f, t).board, white) == Some(k)
    ensures At(TryMove(l, f, t).board, k) == KingOf(white)
  {
    KingsComeFrom(l, white, f, t, kind, k);
    ExecutedCells(l, white, f, t);
    TrialCells(l.board, f, t);
    TrialSoleKings(l.board, f, t, white);
    if CastlingMove(At(l.board, f), f, t) {
      CastlesFromHome(l, white, f, t);
      assert KingCell(l.board, white) == Some(f);
    }
  }

  lemma OnlySlidersReachFar(l: Layout, p: char, s: Cell, x: Cell, target: Cell)
    requires Attacks(l, p, s, target) && Between(s, x, target) && At(l.board, target) != '.'
    ensures Slides(p, s, target) && PathClear(l.board, s, target)
  {
  }

  lemma AttackMeansChecked(l: Layout, white: bool, k: Cell, s: Cell)
    requires KingCell(l.board, white) == Some(k)
    requires Holds(l.board, s, !white) && Attacks(l, At(l.board, s), s, k)
    ensures Checked(l, white)
  {
    assert AttackedBy(l, k, !white);
  }

  lemma EarlyHitAttacks(l: Layout, target: Cell, byWhite: bool)
    ensures EarlyHit(l, target, byWhite) ==> AttackedBy(l, target, byWhite)
  {
  }

  lemma KingTriedAt(b: Board, f: Cell, t: Cell, white: bool, k: Cell)
    requires Unique(b, white) && f != t && At(Trial(b, f, t), k) == KingOf(white)
    ensures KingCell(Trial(b, f, t), white) == Some(k)
  {
    TrialSoleKings(b, f, t, white);
  }

  lemma CornerKingFaces(l: Layout, white: bool, f: Cell, t: Cell)
    requires Sound(l, white) && MayMove(l, white, f, t) && CastlingMove(At(l.board, f), f, t) && t.col == 2
    requires At(l.board, Corner(f, t)) == KingOf(!white)
    ensures var b := TryMove(l, f, t).board;
      KingCell(b, white) == Some(t) && KingCell(b, !white) == Some(Corner(f, t)) && Facing(b)
  {
    CastlesFromHome(l, white, f, t);
    TrialCells(l.board, f, t);
    KingTriedAt(l.board, f, t, white, t);
    KingTriedAt(l.board, f, t, !white, Corner(f, t));
  }

  /** The one king that castling could carry next to its enemy already stood in check. */
  lemma NoKingInTheCorner(l: Layout, white: bool, f: Cell, t: Cell)
    requires SafelyLegal(l, white, f, t, None) && CastlingMove(At(l.board, f), f, t) && t.col == 2
    ensures At(l.board, Corner(f, t)) != KingOf(!white)
  {
    var T, c := TryMove(l, f, t), Corner(f, t);
    if At(l.board, c) == KingOf(!white) {
      CornerKingFaces(l, white, f, t);
      EarlyHitAttacks(T, t, !white);
      if EarlyHit(T, c, white) { CornerKingWasAttacked(l, white, f, t); }
    }
  }

  lemma CornerKingWasAttacked(l: Layout, white: bool, f: Cell, t: Cell)
    requires Sound(l, white) && MayMove(l, white, f, t) && CastlingMove(At(l.board, f), f, t) && t.col == 2
    requires At(l.board, Corner(f, t)) == KingOf(!white) && EarlyHit(TryMove(l, f, t), Corner(f, t), white)
    ensures Checked(l, !white)
  {
    CornerKingFaces(l, white, f, t);
    var T, c := TryMove(l, f, t), Corner(f, t);
    var s: Cell :| Holds(T.board, s, white) && Attacks(T, At(T.board, s), s, c)
      && (forall k: Cell :: At(T.board, k) == KingOf(white) ==> Index(s) < Index(k));
    assert At(T.board, t) == KingOf(white);
    CornerAttackIsOld(l, white, f, t, s);
    AttackMeansChecked(l, !white, c, s);
  }

  lemma CornerAttackIsOld(l: Layout, white: bool, f: Cell, t: Cell, s: Cell)
    requires Sound(l, white) && MayMove(l, white, f, t) && CastlingMove(At(l.board, f), f, t) && t.col == 2
    requires Holds(l.board, Corner(f, t), !white) && s != t
    requires Attacks(TryMove(l, f, t), At(TryMove(l, f, t).board, s), s, Corner(f, t))
    requires Holds(TryMove(l, f, t).board, s, white)
    ensures Holds(l.board, s, white) && Attacks(l, At(l.board, s), s, Corner(f, t))
  {
    CastlesFromHome(l, white, f, t);
    TrialCells(l.board, f, t);
    var T, c := TryMove(l, f, t), Corner(f, t);
    assert Between(s, f, c) ==> Between(s, t, c);
    if Between(s, f, c) {
      OnlySlidersReachFar(T, At(T.board, s), s, f, c);
    }
    StillAttacks(l, T, s, s, c);
  }

  /** Castling carries the corner's piece to the king's side; it did not matter there either. */
  lemma CornerPieceIsHarmless(l: Layout, white: bool, f: Cell, t: Cell)
    requires SafelyLegal(l, white, f, t, None) && CastlingMove(At(l.board, f), f, t)
    requires Holds(l.board, Corner(f, t), !white)
    ensures !Attacks(Played(l, f, t, None), At(l.board, Corner(f, t)), RookSquare(f, t), t)
  {
    CastlesFromHome(l, white, f, t);
    ExecutedCells(l, white, f, t);
    TrialCells(l.board, f, t);
    var T, c, p := TryMove(l, f, t), Corner(f, t), At(l.board, Corner(f, t));
    SameKing(l, white, f, t, None, t);
    if t.col == 2 { NoKingInTheCorner(l, white, f, t); }
    if Attacks(Played(l, f, t, None), p, RookSquare(f, t), t) {
      assert forall x: Cell :: Between(c, x, t) ==> Between(f, x, c) && x != t;
      AttackMeansChecked(T, white, t, c);
    }
  }

  /** After castling, the pieces away from the king's side stand as on the tested board. */
  lemma TriedAndCastled(l: Layout, white: bool, f: Cell, t: Cell, x: Cell)
    requires Sound(l, white) && MayMove(l, white, f, t) && CastlingMove(At(l.board, f), f, t) && x != RookSquare(f, t)
    ensures var b, b' := TryMove(l, f, t).board, Played(l, f, t, None).board;
      && (x != Corner(f, t) ==> At(b, x) == At(b', x))
      && At(b', Corner(f, t)) == '.' && At(b, t) == At(b', t) == KingOf(white)
  {
    CastlesFromHome(l, white, f, t);
    ExecutedCells(l, white, f, t);
    TrialCells(l.board, f, t);
  }

  lemma CastledAttackWasTested(l: Layout, white: bool, f: Cell, t: Cell, s: Cell)
    requires Sound(l, white) && MayMove(l, white, f, t) && CastlingMove(At(l.board, f), f, t) && s != RookSquare(f, t)
    requires Holds(Played(l, f, t, None).board, s, !white)
    requires Attacks(Played(l, f, t, None), At(Played(l, f, t, None).board, s), s, t)
    ensures Holds(TryMove(l, f, t).board, s, !white) && Attacks(TryMove(l, f, t), At(TryMove(l, f, t).board, s), s, t)
  {
    CastlesFromHome(l, white, f, t);
    forall x: Cell | x != RookSquare(f, t)
      ensures x != Corner(f, t) ==> At(TryMove(l, f, t).board, x) == At(Played(l, f, t, None).board, x)
    {
      TriedAndCastled(l, white, f, t, x);
    }
    TriedAndCastled(l, white, f, t, s);
    ExecutedCells(l, white, f, t);
    TrialCells(l.board, f, t);
    assert !Between(s, Corner(f, t), t);
    StillAttacks(TryMove(l, f, t), Played(l, f, t, None), s, s, t);
  }

  /** After a castling move no enemy piece attacks the king. */
  lemma CastledKingIsSafe(l: Layout, white: bool, f: Cell, t: Cell, s: Cell)
    requires SafelyLegal(l, white, f, t, None) && CastlingMove(At(l.board, f), f, t)
    requires Holds(Played(l, f, t, None).board, s, !white)
    ensures !Attacks(Played(l, f, t, None), At(Played(l, f, t, None).board, s), s, t)
  {
    var T, l' := TryMove(l, f, t), Played(l, f, t, None);
    if s == RookSquare(f, t) {
      CastledCornerPiece(l, white, f, t);
      CornerPieceIsHarmless(l, white, f, t);
    } else if Attacks(l', At(l'.board, s), s, t) {
      CastledAttackWasTested(l, white, f, t, s);
      TriedAndCastled(l, white, f, t, s);
      SameKing(l, white, f, t, None, t);
      AttackMeansChecked(T, white, t, s);
    }
  }

  lemma CastledCornerPiece(l: Layout, white: bool, f: Cell, t: Cell)
    requires Sound(l, white) && MayMove(l, white, f, t) && CastlingMove(At(l.board, f), f, t)
    ensures At(Played(l, f, t, None).board, RookSquare(f, t)) == At(l.board, Corner(f, t))
  {
    CastlesFromHome(l, white, f, t);
    ExecutedCells(l, white, f, t);
  }

  /** What the tested and the played board have in common, castling aside. */
  lemma TriedAndPlayed(l: Layout, white: bool, f: Cell, t: Cell, kind: Option<char>, x: Cell)
    requires SafelyLegal(l, white, f, t, kind) && !CastlingMove(At(l.board, f), f, t)
    ensures var b, b' := TryMove(l, f, t).board, Played(l, f, t, kind).board;
      && (Holds(b', x, !white) || IsKing(At(b', x)) ==> At(b, x) == At(b', x))
      && (At(b', x) == '.' && !(EnPassantCapture(l.board, f, t) && x == Passed(f, t)) ==> At(b, x) == '.')
  {
    ExecutedCells(l, white, f, t);
    TrialCells(l.board, f, t);
    if kind.Some? { CrownedIsNoKing(white, kind.value); }
  }

  /** An attack whose line does not run through the passed pawn was there on the tested board. */
  lemma AttackWasTested(l: Layout, white: bool, f: Cell, t: Cell, kind: Option<char>, k: Cell, s: Cell)
    requires SafelyLegal(l, white, f, t, kind) && !CastlingMove(At(l.board, f), f, t)
    requires At(Played(l, f, t, kind).board, k) == KingOf(white)
    requires Holds(Played(l, f, t, kind).board, s, !white)
    requires Attacks(Played(l, f, t, kind), At(Played(l, f, t, kind).board, s), s, k)
    ensures EnPassantCapture(l.board, f, t) && Between(s, Passed(f, t), k)
  {
    if !(EnPassantCapture(l.board, f, t) && Between(s, Passed(f, t), k)) {
      forall x: Cell
        ensures (At(Played(l, f, t, kind).board, x) == '.' && !(EnPassantCapture(l.board, f, t) && x == Passed(f, t))) ==>
          At(TryMove(l, f, t).board, x) == '.'
      {
        TriedAndPlayed(l, white, f, t, kind, x);
      }
      TriedAndPlayed(l, white, f, t, kind, s);
      TriedAndPlayed(l, white, f, t, kind, k);
      SameKing(l, white, f, t, kind, k);
      StillAttacks(TryMove(l, f, t), Played(l, f, t, kind), s, s, k);
      AttackMeansChecked(TryMove(l, f, t), white, k, s);
    }
  }

  /** Apart from castling, an attack that appears on the king runs through the pawn taken en passant. */
  lemma NewAttackExposes(l: Layout, white: bool, f: Cell, t: Cell, kind: Option<char>, k: Cell, s: Cell)
    requires SafelyLegal(l, white, f, t, kind) && !CastlingMove(At(l.board, f), f, t)
    requires At(Played(l, f, t, kind).board, k) == KingOf(white)
    requires Holds(Played(l, f, t, kind).board, s, !white)
    requires Attacks(Played(l, f, t, kind), At(Played(l, f, t, kind).board, s), s, k)
    ensures Exposes(l, white, f, t)
  {
    AttackWasTested(l, white, f, t, kind, k, s);
    SeenAfterCapture(l, white, f, t, kind, k, s);
  }

  lemma SeenAfterCapture(l: Layout, white: bool, f: Cell, t: Cell, kind: Option<char>, k: Cell, s: Cell)
    requires SafelyLegal(l, white, f, t, kind) && EnPassantCapture(l.board, f, t) && Between(s, Passed(f, t), k)
    requires At(Played(l, f, t, kind).board, k) == KingOf(white)
    requires Holds(Played(l, f, t, kind).board, s, !white)
    requires Attacks(Played(l, f, t, kind), At(Played(l, f, t, kind).board, s), s, k)
    ensures Exposes(l, white, f, t)
  {
    var l' := Played(l, f, t, kind);
    PassantNotCrowned(l, white, f, t, kind);
    EnPassantCells(l, white, f, t);
    OnlySlidersReachFar(l', At(l'.board, s), s, Passed(f, t), k);
    assert KingCell(l.board, white) == Some(k);
    assert SeesThrough(l, white, f, t, k, s);
  }

  lemma PassantNotCrowned(l: Layout, white: bool, f: Cell, t: Cell, kind: Option<char>)
    requires PassedPawn(l, white) && MayMove(l, white, f, t) && CrownsRightly(l, f, t, kind)
    requires EnPassantCapture(l.board, f, t)
    ensures kind.None?
  {
    TakesEnPassant(l, white, f, t);
  }

  lemma ExposedKingIsChecked(l: Layout, white: bool, f: Cell, t: Cell, kind: Option<char>)
    requires SafelyLegal(l, white, f, t, kind) && Exposes(l, white, f, t)
    ensures Checked(Played(l, f, t, kind), white)
  {
    TakesEnPassant(l, white, f, t);
    ExecutedCells(l, white, f, t);
    var k, l' := KingCell(l.board, white).value, Played(l, f, t, kind);
    var s: Cell :| SeesThrough(l, white, f, t, k, s);
    KeepsSoleKing(l, white, f, t, kind, white);
    assert At(l'.board, k) == KingOf(white);
    SeenThroughIsOpen(l, white, f, t, k, s);
    OpenLineAttacks(l', white, s, k);
    AttackMeansChecked(l', white, k, s);
  }

  lemma EnPassantCells(l: Layout, white: bool, f: Cell, t: Cell)
    requires PassedPawn(l, white) && MayMove(l, white, f, t) && EnPassantCapture(l.board, f, t)
    ensures forall s: Cell ::
      At(ExecutedBoard(l.board, f, t), s) ==
      (if s == f || s == Passed(f, t) then '.' else if s == t then At(l.board, f) else At(l.board, s))
  {
    TakesEnPassant(l, white, f, t);
  }

  lemma OpenLineAttacks(l: Layout, white: bool, s: Cell, k: Cell)
    requires Slides(At(l.board, s), s, k) && PathClear(l.board, s, k) && s != k
    requires Holds(l.board, s, !white) && At(l.board, k) == KingOf(white)
    ensures Attacks(l, At(l.board, s), s, k)
  {
  }

  lemma SeenThroughIsOpen(l: Layout, white: bool, f: Cell, t: Cell, k: Cell, s: Cell)
    requires Sound(l, white) && MayMove(l, white, f, t) && EnPassantCapture(l.board, f, t)
    requires At(l.board, k) == KingOf(white) && SeesThrough(l, white, f, t, k, s)
    ensures var b' := ExecutedBoard(l.board, f, t);
      At(b', s) == At(l.board, s) && At(b', k) == KingOf(white) && PathClear(b', s, k)
  {
    TakesEnPassant(l, white, f, t);
    EnPassantCells(l, white, f, t);
  }

  /** After castling nothing attacks the king. */
  lemma CastledIsUnattacked(l: Layout, white: bool, f: Cell, t: Cell, k: Cell, s: Cell)
    requires SafelyLegal(l, white, f, t, None) && CastlingMove(At(l.board, f), f, t)
    requires KingCell(Played(l, f, t, None).board, white) == Some(k)
    requires Holds(Played(l, f, t, None).board, s, !white)
    ensures !Attacks(Played(l, f, t, None), At(Played(l, f, t, None).board, s), s, k)
  {
    CastledKingCell(l, white, f, t, k);
    CastledKingIsSafe(l, white, f, t, s);
  }

  lemma KingsAreNotCrowned(l: Layout, f: Cell, t: Cell, kind: Option<char>)
    requires CrownsRightly(l, f, t, kind) && CastlingMove(At(l.board, f), f, t)
    ensures kind == None
  {
  }

  lemma CastledKingCell(l: Layout, white: bool, f: Cell, t: Cell, k: Cell)
    requires SafelyLegal(l, white, f, t, None) && CastlingMove(At(l.board, f), f, t)
    requires KingCell(Played(l, f, t, None).board, white) == Some(k)
    ensures k == t
  {
    ExecutedCells(l, white, f, t);
    KeepsSoleKing(l, white, f, t, None, white);
    assert At(Played(l, f, t, None).board, t) == KingOf(white);
  }

  /**
    King safety, exactly: a legal move leaves the mover in check if and only if it is an
    en-passant capture that uncovers the king.
   */
  lemma KingSafety(l: Layout, white: bool, f: Cell, t: Cell, kind: Option<char>)
    requires SafelyLegal(l, white, f, t, kind)
    ensures Checked(Played(l, f, t, kind), white) <==> Exposes(l, white, f, t)
  {
    var l' := Played(l, f, t, kind);
    if Exposes(l, white, f, t) {
      ExposedKingIsChecked(l, white, f, t, kind);
    } else if Checked(l', white) {
      var k := KingCell(l'.board, white).value;
      var s: Cell :| Holds(l'.board, s, !white) && Attacks(l', At(l'.board, s), s, k);
      if CastlingMove(At(l.board, f), f, t) {
        KingsAreNotCrowned(l, f, t, kind);
        CastledIsUnattacked(l, white, f, t, k, s);
      } else {
        NewAttackExposes(l, white, f, t, kind, k, s);
      }
    }
  }

  /** While the opponent is not in check, no legal move takes its king. */
  lemma NoKingIsTaken(l: Layout, white: bool, f: Cell, t: Cell)
    requires Sound(l, white) && !Checked(l, !white) && Legal(l, white, f, t)
    ensures At(l.board, t) != KingOf(!white)
  {
    if At(l.board, t) == KingOf(!white) {
      assert KingCell(l.board, !white) == Some(t);
      if CastlingMove(At(l.board, f), f, t) { CastlesFromHome(l, white, f, t); }
      AttackMeansChecked(l, !white, t, f);
    }
  }

  ghost predicate BothKings(b: Board) { KingCell(b, true).Some? && KingCell(b, false).Some? }

  /** ... so each side keeps its king. */
  lemma KingsStay(l: Layout, white: bool, f: Cell, t: Cell, kind: Option<char>, king: bool)
    requires SafelyLegal(l, white, f, t, kind) && KingCell(l.board, king).Some?
    ensures KingCell(Played(l, f, t, kind).board, king).Some?
  {
    var k := KingCell(l.board, king).value;
    if CastlingMove(At(l.board, f), f, t) {
      KingsAreNotCrowned(l, f, t, kind);
      KingsStayCastling(l, white, f, t, k, king);
    } else {
      NoKingIsTaken(l, white, f, t);
      KingIsAt(l, white, f, t, kind, k, king);
    }
  }

  lemma KingIsAt(l: Layout, white: bool, f: Cell, t: Cell, kind: Option<char>, k: Cell, king: bool)
    requires Sound(l, white) && MayMove(l, white, f, t) && CrownsRightly(l, f, t, kind)
    requires !CastlingMove(At(l.board, f), f, t) && At(l.board, k) == KingOf(king) && At(l.board, t) != KingOf(!white)
    ensures KingCell(Played(l, f, t, kind).board, king).Some?
  {
    ExecutedCells(l, white, f, t);
    if EnPassantCapture(l.board, f, t) { TakesEnPassant(l, white, f, t); }
    var k' := if k == f then t else k;
    assert At(Played(l, f, t, kind).board, k') == KingOf(king);
  }

  lemma KingsStayCastling(l: Layout, white: bool, f: Cell, t: Cell, k: Cell, king: bool)
    requires Sound(l, white) && MayMove(l, white, f, t) && CastlingMove(At(l.board, f), f, t)
    requires At(l.board, k) == KingOf(king)
    ensures KingCell(Played(l, f, t, None).board, king).Some?
  {
    CastlesFromHome(l, white, f, t);
    ExecutedCells(l, white, f, t);
    var k' := if k == f then t else if k == Corner(f, t) then RookSquare(f, t) else k;
    assert At(ExecutedBoard(l.board, f, t), k') == KingOf(king);
  }

}
