/**
  Games that also take moves back and play on, even while a pawn is lost: what holds of every
  state of theirs, where taking everything back leads, and what becomes of the material.
 */
module TakeBacks {
  import opened Squares
  import opened Rules
  import opened Settling
  import opened GameState
  import opened Positions
  import opened Runs
  import opened Games
  import opened Material

  /** The layout after the last record has been undone. */
  function TakenBack(l: Layout, r: Record): Layout {
    Layout(UnshiftRook(Put(Put(l.board, r.from, r.piece), r.to, r.captured), r), r.ep, r.moved)
  }

  predicate SteppedTwice(r: Record) { SteppedOver(r).Some? }

  /** What the recorded move has left on the board, but that a pawn which stepped twice may be lost. */
  predicate Traced(b: Board, r: Record) {
    && r.from != r.to && r.piece != '.' && At(b, r.from) == '.'
    && (CastlingMove(r.piece, r.from, r.to) ==>
          r.captured == '.' && r.from.row == r.to.row && r.from.col == 4 && At(b, Corner(r.from, r.to)) == '.')
    && (SteppedTwice(r) ==>
          && r.to == Square(r.from.row + 2 * Forward(IsWhite(r.piece)), r.from.col)
          && (At(b, r.to) == r.piece || At(b, r.to) == '.'))
    && (At(b, r.to) == '.' ==> SteppedTwice(r))
  }

  function Last(h: seq<Record>): Record
    requires h != []
  {
    h[|h| - 1]
  }

  /** The pawn that moved last is lost. */
  predicate Gone(b: Board, h: seq<Record>) { h != [] && At(b, Last(h).to) == '.' }

  /** Undone record by record the layout stays a position with sole kings, and ends as the start position. */
  ghost predicate Unwinds(l: Layout, h: seq<Record>)
    decreases |h|
  {
    && SoleKings(l.board) && HomeKings(l)
    && if h == [] then l == START_STATE.l
       else
         && Traced(l.board, Last(h))
         && (TookEnPassant(Last(h)) ==> Gone(TakenBack(l, Last(h)).board, h[..|h| - 1]))
         && Unwinds(TakenBack(l, Last(h)), h[..|h| - 1])
  }

  // ----------------------------------------------------------------- a lost pawn

  lemma GoneKeepsKings(l: Layout, c: Cell)
    requires SoleKings(l.board) && HomeKings(l) && !IsKing(At(l.board, c))
    ensures SoleKings(Put(l.board, c, '.')) && HomeKings(l.(board := Put(l.board, c, '.')))
  {
    var b' := Put(l.board, c, '.');
    forall s: Cell | IsKing(At(b', s))
      ensures KingCell(b', At(b', s) == 'K') == Some(s)
    {
      KingCellIs(b', At(b', s) == 'K', s);
    }
  }

  lemma GoneIsOverwritten(l: Layout, r: Record)
    requires SteppedTwice(r)
    ensures TakenBack(l.(board := Put(l.board, r.to, '.')), r) == TakenBack(l, r)
  {
    SameCells(Put(Put(Put(l.board, r.to, '.'), r.from, r.piece), r.to, r.captured),
              Put(Put(l.board, r.from, r.piece), r.to, r.captured));
  }

  /** Without the pawn that has just stepped twice the layout unwinds all the same. */
  lemma GoneUnwinds(l: Layout, h: seq<Record>)
    requires Unwinds(l, h) && h != [] && SteppedTwice(Last(h))
    ensures Unwinds(l.(board := Put(l.board, Last(h).to, '.')), h)
  {
    GoneKeepsKings(l, Last(h).to);
    GoneIsOverwritten(l, Last(h));
  }

  lemma CapturesOnTarget(l: Layout, white: bool, f: Cell, t: Cell)
    requires MayMove(l, white, f, t)
    ensures EnPassantCapture(l.board, f, t) ==> l.ep == Some(t) && t.row == f.row + Forward(white)
  {
  }

  lemma SteppedPast(r: Record, white: bool, f: Cell, t: Cell)
    requires SteppedOver(r) == Some(t) && IsWhite(r.piece) != white
    requires r.to == Square(r.from.row + 2 * Forward(IsWhite(r.piece)), r.from.col)
    requires t.row == f.row + Forward(white)
    ensures r.to == Passed(f, t)
  {
  }

  lemma LastIsEnemy(st: State)
    requires Derived(st) && st.l.ep.Some?
    ensures st.history != []
    ensures IsWhite(Last(st.history).piece) != st.whiteToMove
    ensures SteppedOver(Last(st.history)) == st.l.ep
  {
    var n := |st.history|;
    assert n > 0 && DerivedRecord(st.history, n - 1);
  }

  lemma LastIsTraced(l: Layout, h: seq<Record>)
    requires Unwinds(l, h) && h != []
    ensures Traced(l.board, Last(h))
  {
  }

  /** The square that an en-passant capture empties is where the last move went. */
  lemma PassedIsLast(st: State, f: Cell, t: Cell)
    requires Derived(st) && Unwinds(st.l, st.history)
    requires MayMove(st.l, st.whiteToMove, f, t) && EnPassantCapture(st.l.board, f, t)
    ensures st.history != [] && SteppedTwice(Last(st.history)) && Last(st.history).to == Passed(f, t)
  {
    CapturesOnTarget(st.l, st.whiteToMove, f, t);
    LastIsEnemy(st);
    LastIsTraced(st.l, st.history);
    SteppedPast(Last(st.history), st.whiteToMove, f, t);
  }

  // ----------------------------------------------------------------- the actions

  lemma UndoneUnwinds(st: State, f: Cell, t: Cell)
    requires Derived(st) && Unwinds(st.l, st.history) && MayMove(st.l, st.whiteToMove, f, t)
    ensures Unwinds(st.l.(board := Undone(st.l.board, f, t)), st.history)
    ensures EnPassantCapture(st.l.board, f, t) ==> Gone(Undone(st.l.board, f, t), st.history)
  {
    if EnPassantCapture(st.l.board, f, t) {
      PassedIsLast(st, f, t);
      GoneUnwinds(st.l, st.history);
    }
  }

  lemma MoveIsTraced(l: Layout, white: bool, f: Cell, t: Cell, kind: Option<char>, r: Record)
    requires SoleKings(l.board) && HomeKings(l) && MayMove(l, white, f, t) && CrownsRightly(l, f, t, kind)
    requires r.from == f && r.to == t && r.piece == At(l.board, f) && r.captured == At(l.board, t)
    ensures Traced(Played(l, f, t, kind).board, r)
  {
    ExecutedCells(l, white, f, t);
    if CastlingMove(r.piece, f, t) { CastlesFromHome(l, white, f, t); }
    if SteppedTwice(r) { TwoStepsAhead(l, white, f, t); }
    if kind.Some? { CrownedIsNoKing(IsWhite(At(l.board, f)), kind.value); }
  }

  lemma MoveUnwinds(st: State, f: Cell, t: Cell, kind: Option<char>, r: Record)
    requires Derived(st) && Unwinds(st.l, st.history)
    requires MayMove(st.l, st.whiteToMove, f, t) && CrownsRightly(st.l, f, t, kind)
    requires r == Record(f, t, At(st.l.board, f), At(st.l.board, t), st.l.ep, st.l.moved)
    ensures Unwinds(Played(st.l, f, t, kind), st.history + [r])
    ensures Sound(Played(st.l, f, t, kind), !st.whiteToMove)
  {
    var l', h' := Played(st.l, f, t, kind), st.history + [r];
    MoveKeepsSound(st.l, st.whiteToMove, f, t, kind);
    MoveIsTraced(st.l, st.whiteToMove, f, t, kind, r);
    UndoRestoresBoard(st.l, st.whiteToMove, f, t, kind, r);
    UndoneUnwinds(st, f, t);
    assert h'[..|h'| - 1] == st.history && Last(h') == r;
    assert TakenBack(l', r) == st.l.(board := Undone(st.l.board, f, t));
  }

  lemma PlyUnwinds(st: State, ply: Ply, d: nat)
    requires Derived(st) && Unwinds(st.l, st.history) && EndsRightly(st) && PlyTo(st, ply, d).Some?
    ensures var st' := PlyTo(st, ply, d).value;
      Unwinds(st'.l, st'.history) && EndsRightly(st') && Sound(st'.l, st'.whiteToMove) && st'.history != []
  {
    PlyCompletes(st, ply, d);
    PlyKeepsSound(st, ply, d);
    EndIsRecorded(st, ply, d);
    MoveUnwinds(st, ply.from, ply.to, KindOf(st.l.board, ply),
      Record(ply.from, ply.to, At(st.l.board, ply.from), At(st.l.board, ply.to), st.l.ep, st.l.moved));
  }

  /** A pawn that reaches the last rank has taken nothing en passant. */
  lemma LastRankIsNoPassant(st: State, f: Cell, t: Cell)
    requires Derived(st) && MayMove(st.l, st.whiteToMove, f, t) && LastRank(t)
    ensures !EnPassantCapture(st.l.board, f, t)
  {
    CapturesOnTarget(st.l, st.whiteToMove, f, t);
  }

  lemma WithdrawRestores(st: State, f: Cell, t: Cell, d: nat)
    requires Derived(st) && SoleKings(st.l.board) && HomeKings(st.l) && WithdrawTo(st, f, t, d).Some?
    ensures var st' := WithdrawTo(st, f, t, d).value; st'.l == st.l && st'.history == st.history && !st'.gameOver
  {
    var st1 := Execute(st, f, t);
    assert MoveTo(st, f, t, d) == Some((st1, Promotion));
    LegalMeans(st.l, st.whiteToMove, f, t, d);
    UndoRestoresBoard(st.l, st.whiteToMove, f, t, None, st1.history[|st.history|]);
    LastRankIsNoPassant(st, f, t);
    assert st1.history[..|st1.history| - 1] == st.history;
  }

  /** Every state of such a game. */
  ghost predicate Resettled(st: State) {
    Derived(st) && Unwinds(st.l, st.history) && EndsRightly(st) && (st.history == [] ==> !st.gameOver)
  }

  lemma ActionResettles(st: State, a: Action, d: nat)
    requires Resettled(st) && ActTo(st, a, d).Some?
    ensures Resettled(ActTo(st, a, d).value)
  {
    match a
    case Play(ply) =>
      PlyKeepsDerived(st, ply, d);
      PlyUnwinds(st, ply, d);
    case TakeBack => UndoKeepsDerived(st);
    case Withdraw(f, t) =>
      WithdrawKeepsDerived(st, f, t, d);
      WithdrawRestores(st, f, t, d);
  }

  /**
    Whatever is played, taken back and played on, also after an en-passant capture was undone and
    its pawn lost: each side has at most one king, a king that never moved stands at home, the
    derived state agrees with the records, and the game is over only if the side to move is stuck.
   */
  lemma {:induction false} TakeBacksKeepKings(actions: seq<Action>, d: nat)
    requires RunWith(actions, d).Some?
    ensures var st := RunWith(actions, d).value;
      SoleKings(st.l.board) && HomeKings(st.l) && Derived(st) && EndsRightly(st)
    ensures Resettled(RunWith(actions, d).value)
  {
    if actions == [] {
      StartIsSound();
    } else {
      TakeBacksKeepKings(actions[..|actions| - 1], d);
      ActionResettles(RunWith(actions[..|actions| - 1], d).value, actions[|actions| - 1], d);
    }
  }

  // ------------------------------------------------------------ taking all back

  /** The state when undo finds nothing more to undo. */
  function UndoAll(st: State): State
    decreases |st.history|
  {
    match UndoOf(st)
    case None => st
    case Some(st') => UndoAll(st')
  }

  lemma {:induction false} AllUndone(st: State)
    requires Resettled(st)
    ensures UndoAll(st) == START_STATE.(pending := st.pending)
    decreases |st.history|
  {
    if st.history != [] {
      UndoKeepsDerived(st);
      AllUndone(UndoOf(st).value);
    }
  }

  /** Taken back to the first move, every game comes back to the start position, with no pawn lost. */
  lemma TakingAllBackRestoresStart(actions: seq<Action>, d: nat)
    requires RunWith(actions, d).Some?
    ensures var st := RunWith(actions, d).value; UndoAll(st) == START_STATE.(pending := st.pending)
  {
    TakeBacksKeepKings(actions, d);
    AllUndone(RunWith(actions, d).value);
  }

  // ------------------------------------------------------------------- material

  /** The pawns lost for good: gone from where their last move took them, with no capture of theirs on record. */
  function LostPawns(l: Layout, h: seq<Record>, taken: bool): nat
    decreases |h|
  {
    if h == [] then 0
    else One(Gone(l.board, h) && !taken) + LostPawns(TakenBack(l, Last(h)), h[..|h| - 1], TookEnPassant(Last(h)))
  }

  function PiecesAndCaptures(l: Layout, h: seq<Record>): int { PieceCount(l.board) + CapturesIn(h) }

  lemma PutBackTally(b: Board, r: Record)
    requires Traced(b, r)
    ensures Tally(Put(Put(b, r.from, r.piece), r.to, r.captured), '.') ==
      Tally(b, '.') - 1 - One(At(b, r.to) == '.') + One(r.captured == '.')
  {
    PutTally(b, r.from, r.piece, '.');
    PutTally(Put(b, r.from, r.piece), r.to, r.captured, '.');
  }

  lemma UnshiftTally(b: Board, r: Record)
    requires CastlingMove(r.piece, r.from, r.to) ==> At(b, Corner(r.from, r.to)) == '.'
    ensures Tally(UnshiftRook(b, r), '.') == Tally(b, '.')
  {
    if CastlingMove(r.piece, r.from, r.to) {
      var corner, beside := Corner(r.from, r.to), RookSquare(r.from, r.to);
      PutTally(b, corner, At(b, beside), '.');
      PutTally(Put(b, corner, At(b, beside)), beside, '.', '.');
    }
  }

  /** What taking a move back changes: a lost pawn comes back with its own move, and one taken en passant is lost. */
  lemma TakenBackTotal(l: Layout, h: seq<Record>)
    requires h != [] && Traced(l.board, Last(h))
    ensures PiecesAndCaptures(TakenBack(l, Last(h)), h[..|h| - 1]) ==
      PiecesAndCaptures(l, h) + One(Gone(l.board, h)) - One(TookEnPassant(Last(h)))
  {
    var r := Last(h);
    PutBackTally(l.board, r);
    UnshiftTally(Put(Put(l.board, r.from, r.piece), r.to, r.captured), r);
  }

  lemma GoneTotal(b: Board, f: Cell, t: Cell)
    ensures PieceCount(Undone(b, f, t)) == PieceCount(b) - One(EnPassantCapture(b, f, t) && At(b, Passed(f, t)) != '.')
  {
    PutTally(b, Passed(f, t), '.', '.');
  }

  /** A move changes it only by an en-passant capture of a pawn that is lost already. */
  lemma MoveTotal(st: State, f: Cell, t: Cell, kind: Option<char>, r: Record)
    requires Derived(st) && Unwinds(st.l, st.history)
    requires MayMove(st.l, st.whiteToMove, f, t) && CrownsRightly(st.l, f, t, kind)
    requires r == Record(f, t, At(st.l.board, f), At(st.l.board, t), st.l.ep, st.l.moved)
    ensures PiecesAndCaptures(Played(st.l, f, t, kind), st.history + [r]) ==
      PiecesAndCaptures(st.l, st.history) + One(EnPassantCapture(st.l.board, f, t) && At(st.l.board, Passed(f, t)) == '.')
  {
    var l', h' := Played(st.l, f, t, kind), st.history + [r];
    MoveIsTraced(st.l, st.whiteToMove, f, t, kind, r);
    UndoRestoresBoard(st.l, st.whiteToMove, f, t, kind, r);
    assert h'[..|h'| - 1] == st.history && Last(h') == r;
    TakenBackTotal(l', h');
    GoneTotal(st.l.board, f, t);
    MoveStays(st.l, st.whiteToMove, f, t, kind);
  }

  lemma MoveStays(l: Layout, white: bool, f: Cell, t: Cell, kind: Option<char>)
    requires SoleKings(l.board) && HomeKings(l) && MayMove(l, white, f, t) && CrownsRightly(l, f, t, kind)
    ensures At(Played(l, f, t, kind).board, t) != '.'
  {
    ExecutedCells(l, white, f, t);
    if kind.Some? { CrownedIsNoKing(IsWhite(At(l.board, f)), kind.value); }
  }

  /** How each action changes the sum of the pieces on the board and the captures on record. */
  lemma ActionTotal(actions: seq<Action>, a: Action, d: nat)
    requires RunWith(actions, d).Some? && ActTo(RunWith(actions, d).value, a, d).Some?
    ensures var st := RunWith(actions, d).value;
      var st' := ActTo(st, a, d).value;
      PiecesAndCaptures(st'.l, st'.history) == PiecesAndCaptures(st.l, st.history) +
        match a
        case Play(ply) =>
          One(EnPassantCapture(st.l.board, ply.from, ply.to) && At(st.l.board, Passed(ply.from, ply.to)) == '.')
        case TakeBack => One(Gone(st.l.board, st.history)) - One(TookEnPassant(Last(st.history)))
        case Withdraw(_, _) => 0
  {
    TakeBacksKeepKings(actions, d);
    var st := RunWith(actions, d).value;
    match a
    case Play(ply) => PlyTotal(st, ply, d);
    case TakeBack => TakenBackTotal(st.l, st.history);
    case Withdraw(f, t) => WithdrawRestores(st, f, t, d);
  }

  lemma PlyTotal(st: State, ply: Ply, d: nat)
    requires Resettled(st) && PlyTo(st, ply, d).Some?
    ensures var st' := PlyTo(st, ply, d).value;
      PiecesAndCaptures(st'.l, st'.history) == PiecesAndCaptures(st.l, st.history) +
        One(EnPassantCapture(st.l.board, ply.from, ply.to) && At(st.l.board, Passed(ply.from, ply.to)) == '.')
  {
    PlyCompletes(st, ply, d);
    PlyKeepsSound(st, ply, d);
    MoveTotal(st, ply.from, ply.to, KindOf(st.l.board, ply),
      Record(ply.from, ply.to, At(st.l.board, ply.from), At(st.l.board, ply.to), st.l.ep, st.l.moved));
  }

  lemma {:induction false} TotalUnwinds(l: Layout, h: seq<Record>, taken: bool)
    requires Unwinds(l, h) && (taken ==> Gone(l.board, h))
    ensures PiecesAndCaptures(l, h) + LostPawns(l, h, taken) + One(taken) == 32
    decreases |h|
  {
    if h == [] {
      StartTotal(l.board);
    } else {
      TakenBackTotal(l, h);
      TotalUnwinds(TakenBack(l, Last(h)), h[..|h| - 1], TookEnPassant(Last(h)));
    }
  }

  lemma StartTotal(b: Board)
    requires b == START_BOARD
    ensures PieceCount(b) == 32
  {
    StartMiddle(b);
    MiddleCount(b);
  }

  /** In every such game the pieces on the board, the captures on record and the lost pawns add up to 32. */
  lemma PiecesCapturesAndLosses(actions: seq<Action>, d: nat)
    requires RunWith(actions, d).Some?
    ensures var st := RunWith(actions, d).value;
      PieceCount(st.l.board) + CapturesIn(st.history) + LostPawns(st.l, st.history, false) == 32
  {
    TakeBacksKeepKings(actions, d);
    var st := RunWith(actions, d).value;
    TotalUnwinds(st.l, st.history, false);
  }
}
