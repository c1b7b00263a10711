/**
  The state of a ChessGame and what each of its operations does to it.

  As in Rules, everything that asks the legality test is evaluated to a depth d and
  has no result when that depth is not enough.
 */
module GameState {
  import opened Squares
  import opened Rules

  datatype MoveResult = Success | Promotion | Failed

  datatype GameResult = WhiteWins | BlackWins | Draw

  /** What undo needs: the move, the captured character, and the state just before. */
  datatype Record = Record(from: Cell, to: Cell, piece: char, captured: char, ep: Option<Cell>, moved: Moved)

  datatype State = State(
    l: Layout,
    whiteToMove: bool,
    gameOver: bool,
    lastFrom: Option<Cell>,
    lastTo: Option<Cell>,
    pending: Option<GameResult>,
    history: seq<Record>)

  const START_STATE := State(
    Layout(START_BOARD, None, Moved(false, false, false, false, false, false)),
    true, false, None, None, None, [])

  // --------------------------------------------------------------- execution

  predicate CastlingMove(p: char, f: Cell, t: Cell) { IsKing(p) && Abs(t.col - f.col) == 2 }

  /** Where the castling rook lands: next to the king, on column 5 or 3. */
  function RookSquare(f: Cell, t: Cell): Cell { Square(f.row, if t.col > f.col then 5 else 3) }

  function ShiftRook(b: Board, f: Cell, t: Cell): Board {
    if CastlingMove(At(b, f), f, t) then
      Put(Put(b, RookSquare(f, t), At(b, Corner(f, t))), Corner(f, t), '.')
    else b
  }

  /** A pawn changing file onto an empty square takes the pawn beside it. */
  function TakePassed(b: Board, p: char, f: Cell, t: Cell): Board {
    if IsPawn(p) && t.col != f.col && At(b, t) == '.' then Put(b, Square(f.row, t.col), '.') else b
  }

  function ExecutedBoard(b: Board, f: Cell, t: Cell): Board {
    var p := At(b, f);
    Put(Put(TakePassed(ShiftRook(b, f, t), p, f, t), t, p), f, '.')
  }

  function FlagsAfter(m: Moved, p: char, f: Cell): Moved {
    Moved(
      m.wK || p == 'K',
      m.bK || p == 'k',
      m.wA || (p == 'R' && f == Square(7, 0)),
      m.wH || (p == 'R' && f == Square(7, 7)),
      m.bA || (p == 'r' && f == Square(0, 0)),
      m.bH || (p == 'r' && f == Square(0, 7)))
  }

  function EpAfter(p: char, f: Cell, t: Cell): Option<Cell> {
    if IsPawn(p) && Abs(t.row - f.row) == 2 then Some(Square((f.row + t.row) / 2, f.col)) else None
  }

  function Execute(st: State, f: Cell, t: Cell): State {
    var p := At(st.l.board, f);
    st.(l := Layout(ExecutedBoard(st.l.board, f, t), EpAfter(p, f, t), FlagsAfter(st.l.moved, p, f)),
        lastFrom := Some(f), lastTo := Some(t),
        history := st.history + [Record(f, t, p, At(st.l.board, t), st.l.ep, st.l.moved)])
  }

  // ---------------------------------------------------------------- game end

  /** The order in which hasAnyLegalMove tries the moves. */
  predicate TriedBefore(f: Cell, t: Cell, f': Cell, t': Cell) {
    Index(f) < Index(f') || (f == f' && Index(t) < Index(t'))
  }

  ghost predicate Counts(l: Layout, white: bool, d: nat, f: Cell, t: Cell) {
    LegalTo(l, white, f, t, d) != No
  }

  ghost predicate CountsFirst(l: Layout, white: bool, d: nat, f: Cell, t: Cell) {
    Counts(l, white, d, f, t) && forall f': Cell, t': Cell :: TriedBefore(f', t', f, t) ==> !Counts(l, white, d, f', t')
  }

  /** hasAnyLegalMove: the answer of the first move whose test does not say No */
  ghost function AnyLegalTo(l: Layout, white: bool, d: nat): Answer {
    if exists f: Cell, t: Cell :: CountsFirst(l, white, d, f, t) then
      var f: Cell, t: Cell :| CountsFirst(l, white, d, f, t);
      LegalTo(l, white, f, t, d)
    else No
  }

  /** Where the scan for a legal move stops, it answers. */
  lemma FirstCountDecides(l: Layout, white: bool, d: nat, f: Cell, t: Cell)
    requires CountsFirst(l, white, d, f, t)
    ensures AnyLegalTo(l, white, d) == LegalTo(l, white, f, t, d)
  {
    forall f': Cell, t': Cell | CountsFirst(l, white, d, f', t')
      ensures f' == f && t' == t
    {
      CellAtIndex(f); CellAtIndex(f'); CellAtIndex(t); CellAtIndex(t');
      assert !TriedBefore(f, t, f', t') && !TriedBefore(f', t', f, t);
    }
  }

  lemma {:induction false} SomeCountsFirst(l: Layout, white: bool, d: nat, f: Cell, t: Cell)
    requires Counts(l, white, d, f, t)
    ensures exists f': Cell, t': Cell :: CountsFirst(l, white, d, f', t')
    decreases Index(f), Index(t)
  {
    if f': Cell, t': Cell :| TriedBefore(f', t', f, t) && Counts(l, white, d, f', t') {
      SomeCountsFirst(l, white, d, f', t');
    } else {
      assert CountsFirst(l, white, d, f, t);
    }
  }

  lemma AnyFinds(l: Layout, white: bool, d: nat) returns (hit: Option<(Cell, Cell)>)
    ensures hit.None? ==> AnyLegalTo(l, white, d) == No && forall f: Cell, t: Cell :: !Counts(l, white, d, f, t)
    ensures hit.Some? ==>
      && CountsFirst(l, white, d, hit.value.0, hit.value.1)
      && AnyLegalTo(l, white, d) == LegalTo(l, white, hit.value.0, hit.value.1, d)
  {
    if f: Cell, t: Cell :| CountsFirst(l, white, d, f, t) {
      hit := Some((f, t));
      FirstCountDecides(l, white, d, f, t);
    } else {
      hit := None;
      if f: Cell, t: Cell :| Counts(l, white, d, f, t) { SomeCountsFirst(l, white, d, f, t); }
    }
  }

  /** Met in order, a move stops the scan exactly when it is the one the scan finds. */
  lemma CountsOrPasses(l: Layout, white: bool, d: nat, hit: Option<(Cell, Cell)>, f: Cell, t: Cell)
    requires hit.None? ==> forall f': Cell, t': Cell :: !Counts(l, white, d, f', t')
    requires hit.Some? ==> CountsFirst(l, white, d, hit.value.0, hit.value.1)
    requires hit.Some? ==> !TriedBefore(hit.value.0, hit.value.1, f, t)
    ensures Counts(l, white, d, f, t) <==> hit == Some((f, t))
  {
    if hit.Some? {
      CellAtIndex(f); CellAtIndex(t); CellAtIndex(hit.value.0); CellAtIndex(hit.value.1);
    }
  }

  /** A square without a piece of the mover is never where the scan stops. */
  lemma OthersDoNotCount(l: Layout, white: bool, d: nat, hit: Option<(Cell, Cell)>, s: Cell)
    requires hit.Some? ==> CountsFirst(l, white, d, hit.value.0, hit.value.1)
    requires !Holds(l.board, s, white)
    ensures hit.Some? ==> hit.value.0 != s
  {
  }

  function Over(st: State, inCheck: bool): State {
    st.(gameOver := true,
        pending := Some(if !inCheck then Draw else if st.whiteToMove then BlackWins else WhiteWins))
  }

  /** checkAndRecordGameOver */
  ghost function CheckOver(st: State, d: nat): Option<State> {
    match AnyLegalTo(st.l, st.whiteToMove, d)
    case Yes => Some(st)
    case Unsettled => None
    case No =>
      match InCheckTo(st.l, st.whiteToMove, d)
      case Unsettled => None
      case a => Some(Over(st, a == Yes))
  }

  ghost function PassTurn(st: State, d: nat): Option<State> {
    CheckOver(st.(whiteToMove := !st.whiteToMove), d)
  }

  // --------------------------------------------------------------- operations

  predicate LastRank(t: Cell) { t.row == 0 || t.row == 7 }

  /** move: the state after it and the answer given, or None if the tests never settle. */
  ghost function MoveTo(st: State, f: Cell, t: Cell, d: nat): Option<(State, MoveResult)> {
    if st.gameOver then Some((st, Failed))
    else
      match LegalTo(st.l, st.whiteToMove, f, t, d)
      case No => Some((st, Failed))
      case Unsettled => None
      case Yes =>
        if IsPawn(At(st.l.board, f)) && LastRank(t) then Some((Execute(st, f, t), Promotion))
        else
          match PassTurn(Execute(st, f, t), d)
          case None => None
          case Some(st') => Some((st', Success))
  }

  /** applyAIMove: the captured character, or None for a refused move. */
  ghost function EngineTo(st: State, f: Square, t: Square, d: nat): Option<(State, Option<char>)> {
    if !f.OnBoard() || !t.OnBoard() then Some((st, None))
    else
      match LegalTo(st.l, st.whiteToMove, f, t, d)
      case No => Some((st, None))
      case Unsettled => None
      case Yes =>
        match PassTurn(Execute(st, f, t), d)
        case None => None
        case Some(st') => Some((st', Some(At(st.l.board, t))))
  }

  function ToUpper(c: char): char { if 'a' <= c <= 'z' then (c as int - 32) as char else c }

  function ToLower(c: char): char { if 'A' <= c <= 'Z' then (c as int + 32) as char else c }

  function Crown(st: State, at: Cell, kind: char): State {
    var crowned := if IsWhite(At(st.l.board, at)) then ToUpper(kind) else ToLower(kind);
    st.(l := st.l.(board := Put(st.l.board, at, crowned)))
  }

  /** The piece chosen, in the pawn's colour, of the four on offer. */
  lemma CrownsAsChosen(st: State, at: Cell, kind: char)
    requires kind in "QRBNqrbn" && IsPawn(At(st.l.board, at))
    ensures At(Crown(st, at, kind).l.board, at) ==
      var white := At(st.l.board, at) == 'P';
      match kind
      case 'Q' | 'q' => if white then 'Q' else 'q'
      case 'R' | 'r' => if white then 'R' else 'r'
      case 'B' | 'b' => if white then 'B' else 'b'
      case _ => if white then 'N' else 'n'
    ensures forall s: Cell :: s != at ==> At(Crown(st, at, kind).l.board, s) == At(st.l.board, s)
  {
  }

  /** promote */
  ghost function PromoteTo(st: State, at: Cell, kind: char, d: nat): Option<State> {
    PassTurn(Crown(st, at, kind), d)
  }

  /** undo moves the rook of a castling record back to its corner. */
  function UnshiftRook(b: Board, r: Record): Board {
    if CastlingMove(r.piece, r.from, r.to) then
      Put(Put(b, Corner(r.from, r.to), At(b, RookSquare(r.from, r.to))), RookSquare(r.from, r.to), '.')
    else b
  }

  /** undo, or None when there is nothing to undo */
  function UndoOf(st: State): Option<State> {
    if st.history == [] then None
    else
      var r := st.history[|st.history| - 1];
      var rest := st.history[..|st.history| - 1];
      var b := UnshiftRook(Put(Put(st.l.board, r.from, r.piece), r.to, r.captured), r);
      Some(st.(
        l := Layout(b, r.ep, r.moved),
        whiteToMove := IsWhite(r.piece),
        gameOver := false,
        lastFrom := if rest == [] then None else Some(rest[|rest| - 1].from),
        lastTo := if rest == [] then None else Some(rest[|rest| - 1].to),
        history := rest))
  }

  /** undoBoth */
  function UndoBothOf(st: State): State {
    match UndoOf(st)
    case None => st
    case Some(st1) =>
      if st1.whiteToMove then st1
      else
        match UndoOf(st1)
        case None => st1
        case Some(st2) => st2
  }
}
