/** Whole games: runs of completed moves, of either side and of the engine, from the start position. */
module Runs {
  import opened Squares
  import opened Rules
  import opened Settling
  import opened GameState
  import opened Positions

  // ------------------------------------------------------------ completed moves

  /** A move of the human, with the promotion choice if one is asked for, or of the engine. */
  datatype Ply = Human(from: Cell, to: Cell, kind: char) | Engine(from: Cell, to: Cell)

  /** The state after a completed move; None if it is refused or its tests never settle. */
  ghost function PlyTo(st: State, ply: Ply, d: nat): Option<State> {
    match ply
    case Human(f, t, kind) =>
      (match MoveTo(st, f, t, d)
       case Some((st', Success)) => Some(st')
       case Some((st', Promotion)) => if PromotionKind(kind) then PromoteTo(st', t, kind, d) else None
       case _ => None)
    case Engine(f, t) =>
      (match EngineTo(st, f, t, d)
       case Some((st', Some(_))) => Some(st')
       case _ => None)
  }

  /** The promotion that completing this move involves. */
  function KindOf(b: Board, ply: Ply): Option<char> {
    if ply.Human? && IsPawn(At(b, ply.from)) && LastRank(ply.to) then Some(ply.kind) else None
  }

  /** A completed move changes exactly this, and records the end of the game if there is one. */
  ghost predicate Completes(st: State, ply: Ply, st': State) {
    var r := Record(ply.from, ply.to, At(st.l.board, ply.from), At(st.l.board, ply.to), st.l.ep, st.l.moved);
    && st'.l == Played(st.l, ply.from, ply.to, KindOf(st.l.board, ply))
    && st'.whiteToMove == !st.whiteToMove
    && st'.lastFrom == Some(ply.from) && st'.lastTo == Some(ply.to)
    && st'.history == st.history + [r]
    && CrownsRightly(st.l, ply.from, ply.to, KindOf(st.l.board, ply))
    && Holds(st.l.board, ply.from, st.whiteToMove)
  }

  /** The move made, the turn passed, and the end of the game not yet looked at. */
  function Made(st: State, ply: Ply): State {
    var st1 := Execute(st, ply.from, ply.to);
    var st2 := match KindOf(st.l.board, ply) case None => st1 case Some(kind) => Crown(st1, ply.to, kind);
    st2.(whiteToMove := !st.whiteToMove)
  }

  lemma LegalMovesAway(l: Layout, white: bool, f: Cell, t: Cell, d: nat)
    requires LegalTo(l, white, f, t, d) == Yes
    ensures Holds(l.board, f, white) && f != t
  {
  }

  /** The move passes every test that stands before it. */
  ghost predicate Accepted(st: State, ply: Ply, d: nat) {
    && LegalTo(st.l, st.whiteToMove, ply.from, ply.to, d) == Yes
    && (ply.Human? ==> !st.gameOver)
    && CrownsRightly(st.l, ply.from, ply.to, KindOf(st.l.board, ply))
  }

  lemma HumanPlyExact(st: State, f: Cell, t: Cell, kind: char, d: nat)
    ensures PlyTo(st, Human(f, t, kind), d) ==
      if Accepted(st, Human(f, t, kind), d) then CheckOver(Made(st, Human(f, t, kind)), d) else None
  {
    if IsPawn(At(st.l.board, f)) && LastRank(t) {
      assert Accepted(st, Human(f, t, kind), d) ==> MoveTo(st, f, t, d) == Some((Execute(st, f, t), Promotion));
    }
  }

  lemma PlyExact(st: State, ply: Ply, d: nat)
    ensures PlyTo(st, ply, d) == if Accepted(st, ply, d) then CheckOver(Made(st, ply), d) else None
  {
    if ply.Human? { HumanPlyExact(st, ply.from, ply.to, ply.kind, d); }
  }

  lemma MadeCompletes(st: State, ply: Ply)
    requires Holds(st.l.board, ply.from, st.whiteToMove) && ply.from != ply.to
    requires CrownsRightly(st.l, ply.from, ply.to, KindOf(st.l.board, ply))
    ensures Completes(st, ply, Made(st, ply))
  {
    assert At(ExecutedBoard(st.l.board, ply.from, ply.to), ply.to) == At(st.l.board, ply.from);
  }

  lemma CheckOverRecords(st: State, d: nat)
    requires CheckOver(st, d).Some?
    ensures var st' := CheckOver(st, d).value;
      st' == st.(gameOver := st'.gameOver, pending := st'.pending)
  {
  }

  lemma PlyCompletes(st: State, ply: Ply, d: nat)
    requires PlyTo(st, ply, d).Some?
    ensures Completes(st, ply, PlyTo(st, ply, d).value)
    ensures LegalTo(st.l, st.whiteToMove, ply.from, ply.to, d) == Yes
    ensures ply.Human? ==> !st.gameOver
  {
    PlyExact(st, ply, d);
    LegalMovesAway(st.l, st.whiteToMove, ply.from, ply.to, d);
    MadeCompletes(st, ply);
    CheckOverRecords(Made(st, ply), d);
  }

  // ------------------------------------------------------------------ end of game

  /** The side to move has no legal move. */
  ghost predicate Stuck(st: State) {
    forall f: Cell, t: Cell :: !Legal(st.l, st.whiteToMove, f, t)
  }

  ghost predicate EndsRightly(st: State) {
    st.gameOver ==> Stuck(st)
  }

  /** hasAnyLegalMove, when it settles, tells whether a legal move exists. */
  lemma AnyLegalMeans(st: State, d: nat)
    requires SoleKings(st.l.board) && HomeKings(st.l) && AnyLegalTo(st.l, st.whiteToMove, d) != Unsettled
    ensures AnyLegalTo(st.l, st.whiteToMove, d) == No <==> Stuck(st)
  {
    var hit := AnyFinds(st.l, st.whiteToMove, d);
    if hit.Some? {
      LegalMeans(st.l, st.whiteToMove, hit.value.0, hit.value.1, d);
    } else {
      forall f: Cell, t: Cell
        ensures !Legal(st.l, st.whiteToMove, f, t)
      {
        assert !Counts(st.l, st.whiteToMove, d, f, t);
        LegalMeans(st.l, st.whiteToMove, f, t, d);
      }
    }
  }

  lemma CheckMeans(l: Layout, white: bool, d: nat)
    requires SoleKings(l.board) && InCheckTo(l, white, d) != Unsettled
    ensures InCheckTo(l, white, d) == Of(Checked(l, white))
  {
    CheckKeeps(l, white, d, d + 1);
    CheckExact(l, white, d + 1);
  }

  /** The result that belongs to a side with no move. */
  ghost function ResultOf(st: State): GameResult {
    if !Checked(st.l, st.whiteToMove) then Draw else if st.whiteToMove then BlackWins else WhiteWins
  }

  lemma OverMeans(st: State, d: nat)
    requires SoleKings(st.l.board) && HomeKings(st.l) && CheckOver(st, d).Some?
    ensures CheckOver(st, d) == Some(if Stuck(st) then Over(st, Checked(st.l, st.whiteToMove)) else st)
  {
    AnyLegalMeans(st, d);
    if AnyLegalTo(st.l, st.whiteToMove, d) == No { CheckMeans(st.l, st.whiteToMove, d); }
  }

  /** After a completed move the game is over exactly when the side to move is stuck, with the right result. */
  lemma EndIsRecorded(st: State, ply: Ply, d: nat)
    requires SoleKings(st.l.board) && HomeKings(st.l) && EndsRightly(st) && PlyTo(st, ply, d).Some?
    ensures var st' := PlyTo(st, ply, d).value;
      && (st'.gameOver <==> Stuck(st'))
      && st'.pending == if Stuck(st') then Some(ResultOf(st')) else st.pending
  {
    PlyKeepsSound(st, ply, d);
    PlyExact(st, ply, d);
    LegalMovesAway(st.l, st.whiteToMove, ply.from, ply.to, d);
    MadeCompletes(st, ply);
    PlyCompletes(st, ply, d);
    OverMeans(Made(st, ply), d);
  }

  /** Once it is over, no move of either kind is accepted. */
  lemma OverIsOver(st: State, f: Cell, t: Cell, d: nat)
    requires SoleKings(st.l.board) && HomeKings(st.l) && EndsRightly(st) && st.gameOver
    ensures MoveTo(st, f, t, d) == Some((st, Failed))
    ensures EngineTo(st, f, t, d).Some? ==> EngineTo(st, f, t, d) == Some((st, None))
  {
    LegalMeans(st.l, st.whiteToMove, f, t, d);
  }

  lemma PlyKeepsSound(st: State, ply: Ply, d: nat)
    requires SoleKings(st.l.board) && HomeKings(st.l) && PlyTo(st, ply, d).Some?
    ensures Sound(PlyTo(st, ply, d).value.l, !st.whiteToMove)
    ensures Legal(st.l, st.whiteToMove, ply.from, ply.to) && !Hangs(st.l, st.whiteToMove, ply.from, ply.to)
  {
    PlyCompletes(st, ply, d);
    LegalMeans(st.l, st.whiteToMove, ply.from, ply.to, d);
    MoveKeepsSound(st.l, st.whiteToMove, ply.from, ply.to, KindOf(st.l.board, ply));
  }

  // ------------------------------------------------------------ history and flags

  ghost predicate PieceMoved(h: seq<Record>, p: char) {
    exists i :: 0 <= i < |h| && h[i].piece == p
  }

  ghost predicate RookLeft(h: seq<Record>, p: char, corner: Cell) {
    exists i :: 0 <= i < |h| && h[i].piece == p && h[i].from == corner
  }

  /** What the six flags ought to be, read off the game's records. */
  ghost function FlagsOf(h: seq<Record>): Moved {
    Moved(
      PieceMoved(h, 'K'), PieceMoved(h, 'k'),
      RookLeft(h, 'R', Square(7, 0)), RookLeft(h, 'R', Square(7, 7)),
      RookLeft(h, 'r', Square(0, 0)), RookLeft(h, 'r', Square(0, 7)))
  }

  /** The square that a recorded pawn move of two steps went over. */
  function SteppedOver(r: Record): Option<Cell> {
    if (r.piece == 'P' || r.piece == 'p') && r.from.col == r.to.col && Abs(r.to.row - r.from.row) == 2 then
      Some(Square(if r.from.row < r.to.row then r.from.row + 1 else r.from.row - 1, r.from.col))
    else None
  }

  /** The en-passant target that the records determine: what the last move stepped over. */
  function EpOf(h: seq<Record>): Option<Cell> {
    if h == [] then None else SteppedOver(h[|h| - 1])
  }

  /** The flags and the en-passant target are those that the records determine. */
  ghost predicate Remembers(l: Layout, h: seq<Record>) { l.moved == FlagsOf(h) && l.ep == EpOf(h) }

  /** Every derived field is the one the list of records determines. */
  ghost predicate Derived(st: State) {
    var h := st.history;
    && Remembers(st.l, h)
    && st.lastFrom == (if h == [] then None else Some(h[|h| - 1].from))
    && st.lastTo == (if h == [] then None else Some(h[|h| - 1].to))
    && st.whiteToMove == (|h| % 2 == 0)
    && forall i :: 0 <= i < |h| ==> DerivedRecord(h, i)
  }

  ghost predicate DerivedRecord(h: seq<Record>, i: nat)
    requires i < |h|
  {
    h[i].moved == FlagsOf(h[..i]) && h[i].ep == EpOf(h[..i]) && IsWhite(h[i].piece) == (i % 2 == 0)
  }

  lemma FlagsGrow(h: seq<Record>, r: Record)
    ensures FlagsOf(h + [r]) == FlagsAfter(FlagsOf(h), r.piece, r.from)
  {
    var h' := h + [r];
    assert h'[|h|] == r;
    assert forall i :: 0 <= i < |h| ==> h'[i] == h[i];
    forall p: char
      ensures PieceMoved(h', p) <==> PieceMoved(h, p) || r.piece == p
    {
      if i :| 0 <= i < |h| && h[i].piece == p { assert h'[i].piece == p; }
      if r.piece == p { assert h'[|h|].piece == p; }
    }
    forall p: char, c: Cell
      ensures RookLeft(h', p, c) <==> RookLeft(h, p, c) || (r.piece == p && r.from == c)
    {
      if i :| 0 <= i < |h| && h[i].piece == p && h[i].from == c { assert h'[i].from == c; }
      if r.piece == p && r.from == c { assert h'[|h|].from == c; }
    }
  }

  lemma ExecutedRemembers(st: State, f: Cell, t: Cell)
    requires Remembers(st.l, st.history) && (f.col == t.col || Abs(t.row - f.row) != 2)
    ensures Remembers(Execute(st, f, t).l, Execute(st, f, t).history)
  {
    var st' := Execute(st, f, t);
    FlagsGrow(st.history, st'.history[|st.history|]);
  }

  lemma RecordsGrow(h: seq<Record>, r: Record)
    requires forall i :: 0 <= i < |h| ==> DerivedRecord(h, i)
    requires r.moved == FlagsOf(h) && r.ep == EpOf(h) && IsWhite(r.piece) == (|h| % 2 == 0)
    ensures forall i :: 0 <= i <= |h| ==> DerivedRecord(h + [r], i)
  {
    var h' := h + [r];
    assert h'[..|h|] == h;
    forall i | 0 <= i < |h|
      ensures DerivedRecord(h', i)
    {
      assert h'[..i] == h[..i];
      assert DerivedRecord(h, i);
    }
  }

  /** st' comes from st by the recorded move, as far as the derived fields go. */
  ghost predicate Recorded(st: State, st': State, r: Record) {
    && st'.history == st.history + [r] && IsWhite(r.piece) == st.whiteToMove
    && r.moved == st.l.moved && r.ep == st.l.ep
    && st'.l.moved == FlagsAfter(st.l.moved, r.piece, r.from) && st'.l.ep == SteppedOver(r)
    && st'.lastFrom == Some(r.from) && st'.lastTo == Some(r.to) && st'.whiteToMove == !st.whiteToMove
  }

  lemma RecordedKeepsDerived(st: State, st': State, r: Record)
    requires Derived(st) && Recorded(st, st', r)
    ensures Derived(st')
  {
    FlagsGrow(st.history, r);
    RecordsGrow(st.history, r);
  }

  /** A pawn that goes two rows keeps its file. */
  lemma TwoRowsAreStraight(l: Layout, white: bool, f: Cell, t: Cell, d: nat)
    requires LegalTo(l, white, f, t, d) == Yes && IsPawn(At(l.board, f)) && Abs(t.row - f.row) == 2
    ensures f.col == t.col
  {
  }

  lemma TargetIsRecorded(l: Layout, white: bool, d: nat, r: Record)
    requires LegalTo(l, white, r.from, r.to, d) == Yes && r.piece == At(l.board, r.from)
    ensures EpAfter(r.piece, r.from, r.to) == SteppedOver(r)
  {
    if IsPawn(r.piece) && Abs(r.to.row - r.from.row) == 2 { TwoRowsAreStraight(l, white, r.from, r.to, d); }
  }

  lemma PlyRecords(st: State, ply: Ply, d: nat)
    requires PlyTo(st, ply, d).Some?
    ensures Recorded(st, PlyTo(st, ply, d).value,
      Record(ply.from, ply.to, At(st.l.board, ply.from), At(st.l.board, ply.to), st.l.ep, st.l.moved))
  {
    PlyCompletes(st, ply, d);
    TargetIsRecorded(st.l, st.whiteToMove, d,
      Record(ply.from, ply.to, At(st.l.board, ply.from), At(st.l.board, ply.to), st.l.ep, st.l.moved));
  }

  lemma SteppedOverMeans(r: Record, s: Cell)
    ensures SteppedOver(r) == Some(s) <==>
      && r.piece in {'P', 'p'} && r.from.col == r.to.col && Abs(r.to.row - r.from.row) == 2
      && Between(r.from, s, r.to)
  {
  }

  /**
    The en-passant target after a completed move, exactly: the square that a pawn of either
    colour has gone over, two rows along its file, and none after any other move.
   */
  lemma TargetExact(st: State, ply: Ply, d: nat, s: Cell)
    requires PlyTo(st, ply, d).Some?
    ensures PlyTo(st, ply, d).value.l.ep == Some(s) <==>
      && At(st.l.board, ply.from) in {'P', 'p'}
      && ply.from.col == ply.to.col && Abs(ply.to.row - ply.from.row) == 2 && Between(ply.from, s, ply.to)
  {
    var r := Record(ply.from, ply.to, At(st.l.board, ply.from), At(st.l.board, ply.to), st.l.ep, st.l.moved);
    PlyRecords(st, ply, d);
    assert PlyTo(st, ply, d).value.l.ep == SteppedOver(r);
    SteppedOverMeans(r, s);
  }

  lemma PlyKeepsDerived(st: State, ply: Ply, d: nat)
    requires Derived(st) && PlyTo(st, ply, d).Some?
    ensures Derived(PlyTo(st, ply, d).value)
  {
    PlyRecords(st, ply, d);
    RecordedKeepsDerived(st, PlyTo(st, ply, d).value,
      Record(ply.from, ply.to, At(st.l.board, ply.from), At(st.l.board, ply.to), st.l.ep, st.l.moved));
  }

  lemma UndoKeepsDerived(st: State)
    requires Derived(st) && UndoOf(st).Some?
    ensures Derived(UndoOf(st).value)
  {
    var h := st.history;
    var rest := h[..|h| - 1];
    assert DerivedRecord(h, |h| - 1);
    forall i | 0 <= i < |rest|
      ensures DerivedRecord(rest, i)
    {
      assert DerivedRecord(h, i);
      assert rest[..i] == h[..i];
    }
  }

  // ------------------------------------------------------------- castling rights

  /** Where that side's rook starts. */
  function CornerOf(white: bool, kingside: bool): Cell {
    Square(if white then 7 else 0, if kingside then 7 else 0)
  }

  ghost predicate CapturedOn(h: seq<Record>, corner: Cell) {
    exists i :: 0 <= i < |h| && h[i].to == corner && h[i].captured != '.'
  }

  /** The right as section 16.1.3.3 means it: king and rook have stood still, and nothing took the rook. */
  ghost predicate Unspoilt(h: seq<Record>, white: bool, kingside: bool) {
    && !PieceMoved(h, KingOf(white)) && !RookLeft(h, RookOf(white), CornerOf(white, kingside))
    && !CapturedOn(h, CornerOf(white, kingside))
  }

  // --------------------------------------------------------------------- undo

  /** The board that undoing this move leaves: all of it, but for a pawn taken en passant. */
  function Undone(b: Board, f: Cell, t: Cell): Board {
    if EnPassantCapture(b, f, t) then Put(b, Passed(f, t), '.') else b
  }

  lemma UndoRestoresCastling(l: Layout, white: bool, f: Cell, t: Cell, r: Record)
    requires SoleKings(l.board) && HomeKings(l) && MayMove(l, white, f, t) && CastlingMove(At(l.board, f), f, t)
    requires r.from == f && r.to == t && r.piece == At(l.board, f) && r.captured == At(l.board, t)
    ensures UnshiftRook(Put(Put(ExecutedBoard(l.board, f, t), f, r.piece), t, r.captured), r) == l.board
  {
    ExecutedCells(l, white, f, t);
    CastlesFromHome(l, white, f, t);
    SameCells(UnshiftRook(Put(Put(ExecutedBoard(l.board, f, t), f, r.piece), t, r.captured), r), l.board);
  }

  lemma UndoRestoresBoard(l: Layout, white: bool, f: Cell, t: Cell, kind: Option<char>, r: Record)
    requires SoleKings(l.board) && HomeKings(l) && MayMove(l, white, f, t) && CrownsRightly(l, f, t, kind)
    requires r.from == f && r.to == t && r.piece == At(l.board, f) && r.captured == At(l.board, t)
    ensures UnshiftRook(Put(Put(Played(l, f, t, kind).board, f, r.piece), t, r.captured), r) == Undone(l.board, f, t)
  {
    if CastlingMove(At(l.board, f), f, t) {
      UndoRestoresCastling(l, white, f, t, r);
    } else {
      ExecutedCells(l, white, f, t);
      SameCells(Put(Put(Played(l, f, t, kind).board, f, r.piece), t, r.captured), Undone(l.board, f, t));
    }
  }

  /**
    Undo is the exact inverse of every completed move, whatever it was, except that an
    en-passant capture's pawn does not come back and that a result already recorded stays.
   */
  lemma UndoInverts(st: State, ply: Ply, d: nat)
    requires Sound(st.l, st.whiteToMove) && Derived(st) && EndsRightly(st) && PlyTo(st, ply, d).Some?
    ensures var st' := PlyTo(st, ply, d).value;
      UndoOf(st') == Some(st.(
        pending := st'.pending,
        l := st.l.(board := Undone(st.l.board, ply.from, ply.to))))
  {
    PlyCompletes(st, ply, d);
    PlyKeepsSound(st, ply, d);
    var st' := PlyTo(st, ply, d).value;
    var r := st'.history[|st.history|];
    UndoRestoresBoard(st.l, st.whiteToMove, ply.from, ply.to, KindOf(st.l.board, ply), r);
    assert st'.history[..|st'.history| - 1] == st.history;
  }

  /**
    ... so undo gives back the very state exactly when the move took nothing en passant, and
    did not record a result that was not recorded before.
   */
  lemma UndoIsExact(st: State, ply: Ply, d: nat)
    requires Sound(st.l, st.whiteToMove) && Derived(st) && EndsRightly(st) && PlyTo(st, ply, d).Some?
    ensures var st' := PlyTo(st, ply, d).value;
      UndoOf(st') == Some(st) <==>
        && !EnPassantCapture(st.l.board, ply.from, ply.to)
        && (Stuck(st') ==> st.pending == Some(ResultOf(st')))
  {
    UndoInverts(st, ply, d);
    PlyKeepsSound(st, ply, d);
    UndoneIsWhole(st.l, st.whiteToMove, ply.from, ply.to);
    EndIsRecorded(st, ply, d);
    PlyNeedsOpenGame(st, ply, d);
  }

  /** A completed move starts from a game that is not over. */
  lemma PlyNeedsOpenGame(st: State, ply: Ply, d: nat)
    requires Sound(st.l, st.whiteToMove) && EndsRightly(st) && PlyTo(st, ply, d).Some?
    ensures !st.gameOver
  {
    PlyKeepsSound(st, ply, d);
  }

  /** Undoing a pawn's move to the last rank before its promotion is chosen is exact. */
  lemma UndoInvertsOpenPromotion(st: State, f: Cell, t: Cell, d: nat)
    requires Sound(st.l, st.whiteToMove) && Derived(st)
    requires MoveTo(st, f, t, d).Some? && MoveTo(st, f, t, d).value.1 == Promotion
    ensures UndoOf(MoveTo(st, f, t, d).value.0) == Some(st)
  {
    LegalMeans(st.l, st.whiteToMove, f, t, d);
    var st' := Execute(st, f, t);
    assert MoveTo(st, f, t, d).value.0 == st';
    UndoRestoresBoard(st.l, st.whiteToMove, f, t, None, st'.history[|st.history|]);
    PromotionIsNoPassant(st.l, st.whiteToMove, f, t);
    assert st'.history[..|st'.history| - 1] == st.history;
  }

  /** A legal move is left open for a promotion exactly if a pawn has come to the last rank of its own side. */
  lemma PromotionExactly(st: State, f: Cell, t: Cell, d: nat)
    requires MoveTo(st, f, t, d).Some?
    ensures MoveTo(st, f, t, d).value.1 == Promotion <==>
      && !st.gameOver && LegalTo(st.l, st.whiteToMove, f, t, d) == Yes
      && (At(st.l.board, f), t.row) in {('P', 0), ('p', 7)}
  {
    if LegalTo(st.l, st.whiteToMove, f, t, d) == Yes && IsPawn(At(st.l.board, f)) {
      PawnsGoForward(st.l, st.whiteToMove, f, t, d);
    }
  }

  lemma PawnsGoForward(l: Layout, white: bool, f: Cell, t: Cell, d: nat)
    requires LegalTo(l, white, f, t, d) == Yes && IsPawn(At(l.board, f))
    ensures if At(l.board, f) == 'P' then t.row < f.row else f.row < t.row
  {
  }

  lemma PromotionIsNoPassant(l: Layout, white: bool, f: Cell, t: Cell)
    requires Sound(l, white) && MayMove(l, white, f, t) && LastRank(t)
    ensures !EnPassantCapture(l.board, f, t)
  {
    if EnPassantCapture(l.board, f, t) { TakesEnPassant(l, white, f, t); }
  }

  /** The board comes back whole exactly when the move was no en-passant capture. */
  lemma UndoneIsWhole(l: Layout, white: bool, f: Cell, t: Cell)
    requires Sound(l, white) && MayMove(l, white, f, t)
    ensures Undone(l.board, f, t) == l.board <==> !EnPassantCapture(l.board, f, t)
  {
    if EnPassantCapture(l.board, f, t) {
      TakesEnPassant(l, white, f, t);
      assert At(Undone(l.board, f, t), Passed(f, t)) == '.';
    }
  }

  /** How many records undoBoth leaves of n: the largest smaller even number. */
  function LeftByUndoBoth(n: nat): (m: nat)
    ensures m <= n
  {
    if n == 0 then 0 else if n % 2 == 1 then n - 1 else n - 2
  }

  lemma UndoTakesOne(st: State)
    requires Derived(st) && st.history != []
    ensures UndoOf(st).Some? && Derived(UndoOf(st).value)
    ensures UndoOf(st).value.history == st.history[..|st.history| - 1]
    ensures UndoOf(st).value.whiteToMove == !st.whiteToMove
  {
    UndoKeepsDerived(st);
  }

  /** undoBoth always hands the move to White: it takes back one record, or two, or finds none. */
  lemma UndoBothEndsWithWhite(st: State)
    requires Derived(st)
    ensures UndoBothOf(st).whiteToMove && Derived(UndoBothOf(st))
    ensures UndoBothOf(st).history == st.history[..LeftByUndoBoth(|st.history|)]
  {
    if st.history != [] {
      UndoTakesOne(st);
      var st1 := UndoOf(st).value;
      if st1.history != [] { UndoTakesOne(st1); }
    }
  }
}
