/** What every run keeps printable, and what the castling field says about the game so far. */
module Printable {
  import opened Squares
  import opened Rules
  import opened Settling
  import opened GameState
  import opened Positions
  import opened Runs
  import opened Games
  import opened Fen
  import opened Bridge

  lemma PieceCells(b: Board)
    ensures PieceBoard(b) <==> forall s: Cell :: IsPieceOrEmpty(At(b, s))
  {
    if forall s: Cell :: IsPieceOrEmpty(At(b, s)) {
      forall r, c | 0 <= r < 8 && 0 <= c < 8
        ensures IsPieceOrEmpty(b[r][c])
      {
        assert IsPieceOrEmpty(At(b, Square(r, c)));
      }
    }
  }

  lemma MoveKeepsPieces(l: Layout, white: bool, f: Cell, t: Cell, kind: Option<char>, s: Cell)
    requires Sound(l, white) && MayMove(l, white, f, t) && CrownsRightly(l, f, t, kind)
    requires forall c: Cell :: IsPieceOrEmpty(At(l.board, c))
    ensures IsPieceOrEmpty(At(Played(l, f, t, kind).board, s))
  {
    ExecutedCells(l, white, f, t);
    if kind.Some? { CrownedIsNoKing(IsWhite(At(l.board, f)), kind.value); }
  }

  lemma PlyKeepsPieces(st: State, ply: Ply, d: nat)
    requires Sound(st.l, st.whiteToMove) && PieceBoard(st.l.board) && PlyTo(st, ply, d).Some?
    ensures PieceBoard(PlyTo(st, ply, d).value.l.board)
  {
    PlyCompletes(st, ply, d);
    PlyKeepsSound(st, ply, d);
    PieceCells(st.l.board);
    var kind := KindOf(st.l.board, ply);
    forall s: Cell
      ensures IsPieceOrEmpty(At(Played(st.l, ply.from, ply.to, kind).board, s))
    {
      MoveKeepsPieces(st.l, st.whiteToMove, ply.from, ply.to, kind, s);
    }
    PieceCells(Played(st.l, ply.from, ply.to, kind).board);
  }

  /** Every position of every run prints as FEN that both readers read back. */
  lemma {:induction false} RunsPrint(plies: seq<Ply>, d: nat, into: State)
    requires Run(plies, d).Some?
    ensures var st := Run(plies, d).value;
      && PieceBoard(st.l.board)
      && ParseOf(FenOf(st)) == Some(Probe(st.l.board, st.whiteToMove, st.l.ep))
      && LoadOf(into, FenOf(st)).l.board == st.l.board && LoadOf(into, FenOf(st)).whiteToMove == st.whiteToMove
  {
    var st := Run(plies, d).value;
    if plies == [] {
      PieceCells(START_BOARD);
      StartPieces(START_BOARD);
    } else {
      var before := plies[..|plies| - 1];
      RunsPrint(before, d, into);
      RunsAreReached(before, d);
      PlyKeepsPieces(Run(before, d).value, plies[|plies| - 1], d);
    }
    ParsesWhatIsPrinted(st);
    LoadRestores(st, into);
  }

  lemma StartPieces(b: Board)
    requires b == START_BOARD
    ensures forall s: Cell :: IsPieceOrEmpty(At(b, s))
  {
  }

  // ------------------------------------------------------------- castling rights

  /** The character that stands for this right in the castling field. */
  function RightOf(white: bool, kingside: bool): char {
    if white then (if kingside then 'K' else 'Q') else if kingside then 'k' else 'q'
  }

  lemma FieldHolds(st: State, white: bool, kingside: bool)
    requires Derived(st)
    ensures RightOf(white, kingside) in CastlingField(st.l) <==>
      && !PieceMoved(st.history, KingOf(white))
      && !RookLeft(st.history, RookOf(white), CornerOf(white, kingside))
      && At(st.l.board, HomeOf(white)) == KingOf(white)
      && At(st.l.board, CornerOf(white, kingside)) == RookOf(white)
  {
    assert Unmoved(st.l.moved, white, kingside) <==>
      !PieceMoved(st.history, KingOf(white)) && !RookLeft(st.history, RookOf(white), CornerOf(white, kingside));
  }

  lemma SpoiltStays(h: seq<Record>, r: Record, white: bool, kingside: bool)
    requires Unspoilt(h + [r], white, kingside)
    ensures Unspoilt(h, white, kingside) && r.piece != KingOf(white)
    ensures !(r.piece == RookOf(white) && r.from == CornerOf(white, kingside))
    ensures !(r.to == CornerOf(white, kingside) && r.captured != '.')
  {
    var h' := h + [r];
    assert h'[|h|] == r;
    assert forall i :: 0 <= i < |h| ==> h'[i] == h[i];
  }

  lemma UnspoiltStep(l: Layout, white: bool, f: Cell, t: Cell, kind: Option<char>, side: bool, kingside: bool)
    requires Sound(l, white) && MayMove(l, white, f, t) && CrownsRightly(l, f, t, kind)
    requires At(l.board, CornerOf(side, kingside)) == RookOf(side)
    requires At(l.board, f) != KingOf(side) && f != CornerOf(side, kingside) && t != CornerOf(side, kingside)
    ensures At(Played(l, f, t, kind).board, CornerOf(side, kingside)) == RookOf(side)
  {
    ExecutedCells(l, white, f, t);
    if CastlingMove(At(l.board, f), f, t) { CastlesFromHome(l, white, f, t); }
    if EnPassantCapture(l.board, f, t) { TakesEnPassant(l, white, f, t); }
  }

  /** An unspoilt right still has its rook in the corner. */
  lemma {:induction false} UnspoiltRookStands(plies: seq<Ply>, d: nat, white: bool, kingside: bool)
    requires Run(plies, d).Some? && Unspoilt(Run(plies, d).value.history, white, kingside)
    ensures At(Run(plies, d).value.l.board, CornerOf(white, kingside)) == RookOf(white)
  {
    if plies != [] {
      var before, ply := plies[..|plies| - 1], plies[|plies| - 1];
      var st := Run(before, d).value;
      RunsAreReached(before, d);
      PlyRecords(st, ply, d);
      PlyCompletes(st, ply, d);
      PlyKeepsSound(st, ply, d);
      SpoiltStays(st.history, Run(plies, d).value.history[|st.history|], white, kingside);
      UnspoiltRookStands(before, d, white, kingside);
      UnspoiltStep(st.l, st.whiteToMove, ply.from, ply.to, KindOf(st.l.board, ply), white, kingside);
    }
  }

  /** What the field should say, and the one way in which it goes wrong. */
  ghost predicate Advertises(st: State, white: bool, kingside: bool) {
    var corner := CornerOf(white, kingside);
    || Unspoilt(st.history, white, kingside)
    || (!PieceMoved(st.history, KingOf(white)) && !RookLeft(st.history, RookOf(white), corner)
        && CapturedOn(st.history, corner) && At(st.l.board, corner) == RookOf(white))
  }

  /** A king that was never taken and never moved is at home. */
  lemma UnmovedKingIsHome(plies: seq<Ply>, d: nat, white: bool)
    requires Run(plies, d).Some? && NeverExposed(plies, d) && !PieceMoved(Run(plies, d).value.history, KingOf(white))
    ensures At(Run(plies, d).value.l.board, HomeOf(white)) == KingOf(white)
  {
    RunsAreReached(plies, d);
    RunsAreSafe(plies, d);
  }

  /**
    The castling field, exactly: it advertises a right if the king stands at home and the right
    is unspoilt, and wrongly in one case only: the corner's rook was taken there and another
    rook of its colour has come to stand on the corner. That the king stands at home is worth
    saying only of games in which an en-passant capture exposed a king.
   */
  lemma CastlingFieldExact(plies: seq<Ply>, d: nat, white: bool, kingside: bool)
    requires Run(plies, d).Some?
    ensures var st := Run(plies, d).value;
      && (RightOf(white, kingside) in CastlingField(st.l) <==>
            At(st.l.board, HomeOf(white)) == KingOf(white) && Advertises(st, white, kingside))
      && (NeverExposed(plies, d) ==>
            (RightOf(white, kingside) in CastlingField(st.l) <==> Advertises(st, white, kingside)))
  {
    RunsAreReached(plies, d);
    var st := Run(plies, d).value;
    FieldHolds(st, white, kingside);
    if Unspoilt(st.history, white, kingside) { UnspoiltRookStands(plies, d, white, kingside); }
    if NeverExposed(plies, d) && !PieceMoved(st.history, KingOf(white)) { UnmovedKingIsHome(plies, d, white); }
  }
}
