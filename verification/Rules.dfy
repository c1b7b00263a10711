/**
  The move geometry, the attack test and the castling test of ChessGame.

  The four tests of ChessGame call each other in a circle (is a king in check?  is a
  square attacked?  does this piece reach that square?  may this king castle?),
  and on some boards the circle never ends.  Each test is therefore evaluated
  here to a depth d, the number of castling questions that may be nested, and
  answers Unsettled when that depth is not enough.
 */
module Rules {
  import opened Squares

  datatype Answer = Yes | No | Unsettled

  /** The six "has moved" flags: kings, then the a- and h-rooks of either side. */
  datatype Moved = Moved(wK: bool, bK: bool, wA: bool, wH: bool, bA: bool, bH: bool)

  /** All that the legality test reads besides the side to move. */
  datatype Layout = Layout(board: Board, ep: Option<Cell>, moved: Moved)

  function Of(b: bool): Answer { if b then Yes else No }

  function UnitStep(delta: int): int { if delta == 0 then 0 else if delta > 0 then 1 else -1 }

  // ---------------------------------------------------------------- geometry

  predicate OnLine(f: Cell, t: Cell) {
    f.row == t.row || f.col == t.col || Abs(t.row - f.row) == Abs(t.col - f.col)
  }

  /** s lies strictly between f and t on a rank, a file or a diagonal. */
  predicate Between(f: Cell, s: Cell, t: Cell) {
    if f.row == t.row then
      s.row == f.row && (f.col < s.col < t.col || t.col < s.col < f.col)
    else if f.col == t.col then
      s.col == f.col && (f.row < s.row < t.row || t.row < s.row < f.row)
    else
      && Abs(t.row - f.row) == Abs(t.col - f.col)
      && Abs(s.row - f.row) == Abs(s.col - f.col)
      && (f.row < s.row < t.row || t.row < s.row < f.row)
      && (f.col < s.col < t.col || t.col < s.col < f.col)
  }

  ghost predicate PathClear(b: Board, f: Cell, t: Cell) {
    forall s: Cell :: Between(f, s, t) ==> At(b, s) == '.'
  }

  predicate Straight(f: Cell, t: Cell) { f.row == t.row || f.col == t.col }

  predicate Diagonal(f: Cell, t: Cell) { Abs(t.row - f.row) == Abs(t.col - f.col) }

  predicate KnightStep(f: Cell, t: Cell) {
    var dr, dc := Abs(t.row - f.row), Abs(t.col - f.col);
    (dr == 2 && dc == 1) || (dr == 1 && dc == 2)
  }

  predicate KingStep(f: Cell, t: Cell) { Abs(t.row - f.row) <= 1 && Abs(t.col - f.col) <= 1 }

  /** The shape of a castling move. */
  predicate TwoFiles(f: Cell, t: Cell) { f.row == t.row && Abs(t.col - f.col) == 2 }

  function Forward(white: bool): int { if white then -1 else 1 }

  function PawnRow(white: bool): int { if white then 6 else 1 }

  ghost predicate PawnReach(l: Layout, white: bool, f: Cell, t: Cell) {
    var dir := Forward(white);
    || (f.col == t.col && t.row == f.row + dir && At(l.board, t) == '.')
    || (f.col == t.col && f.row == PawnRow(white) && t.row == f.row + 2 * dir
        && At(l.board, t) == '.' && PathClear(l.board, f, t))
    || (Abs(t.col - f.col) == 1 && t.row == f.row + dir
        && (At(l.board, t) != '.' || l.ep == Some(t)))
  }

  /** The per-piece case analysis of isLegalGeometry, castling aside. */
  ghost predicate Reach(l: Layout, p: char, f: Cell, t: Cell) {
    if IsPawn(p) then PawnReach(l, IsWhite(p), f, t)
    else if p == 'R' || p == 'r' then Straight(f, t) && PathClear(l.board, f, t)
    else if p == 'N' || p == 'n' then KnightStep(f, t)
    else if p == 'B' || p == 'b' then Diagonal(f, t) && PathClear(l.board, f, t)
    else if p == 'Q' || p == 'q' then (Diagonal(f, t) || Straight(f, t)) && PathClear(l.board, f, t)
    else IsKing(p) && KingStep(f, t)
  }

  /** A move that stays put or lands on a piece of the mover's own colour. */
  predicate Barred(b: Board, p: char, f: Cell, t: Cell) {
    f == t || (At(b, t) != '.' && IsWhite(At(b, t)) == IsWhite(p))
  }

  ghost predicate Attacks(l: Layout, p: char, f: Cell, t: Cell) {
    !Barred(l.board, p, f, t) && Reach(l, p, f, t)
  }

  // ---------------------------------------------------------------- castling

  function Corner(f: Cell, t: Cell): Cell { Square(f.row, if t.col > f.col then 7 else 0) }

  function PassedOver(f: Cell, t: Cell): Cell
    requires TwoFiles(f, t)
  {
    Square(f.row, f.col + if t.col > f.col then 1 else -1)
  }

  /** No flag says that the king, or the rook of the corner castled toward, has moved. */
  predicate Unmoved(m: Moved, white: bool, kingside: bool) {
    if white then !m.wK && !(if kingside then m.wH else m.wA)
    else !m.bK && !(if kingside then m.bH else m.bA)
  }

  // ------------------------------------------------ the four tests, to depth d

  /** isLegalGeometry */
  ghost function GeometryTo(l: Layout, p: char, f: Cell, t: Cell, d: nat): Answer
    decreases d, 0
  {
    if Barred(l.board, p, f, t) then No
    else if IsKing(p) && TwoFiles(f, t) then
      if d == 0 then Unsettled else CanCastleTo(l, p, f, t, d - 1)
    else Of(Reach(l, p, f, t))
  }

  /** The piece on s does not let isSquareAttacked scan on. */
  ghost predicate Stops(l: Layout, target: Cell, byWhite: bool, d: nat, s: Cell)
    decreases d, 1
  {
    Holds(l.board, s, byWhite) && GeometryTo(l, At(l.board, s), s, target, d) != No
  }

  ghost predicate StopsFirst(l: Layout, target: Cell, byWhite: bool, d: nat, s: Cell)
    decreases d, 2
  {
    Stops(l, target, byWhite, d, s)
    && forall r: Cell :: Index(r) < Index(s) ==> !Stops(l, target, byWhite, d, r)
  }

  /** isSquareAttacked: the answer of the first cell that does not say No */
  ghost function AttackedTo(l: Layout, target: Cell, byWhite: bool, d: nat): Answer
    decreases d, 3
  {
    if exists s: Cell :: StopsFirst(l, target, byWhite, d, s) then
      var s: Cell :| StopsFirst(l, target, byWhite, d, s);
      GeometryTo(l, At(l.board, s), s, target, d)
    else No
  }

  /** s is the first cell in scan order that holds p. */
  ghost predicate IsFirst(b: Board, p: char, s: Cell) {
    At(b, s) == p && forall t: Cell :: At(b, t) == p ==> Index(s) <= Index(t)
  }

  lemma FirstExists(b: Board, p: char, s: Cell)
    requires At(b, s) == p
    ensures exists f: Cell :: IsFirst(b, p, f)
    decreases Index(s)
  {
    if t: Cell :| At(b, t) == p && Index(t) < Index(s) {
      FirstExists(b, p, t);
    } else {
      assert IsFirst(b, p, s);
    }
  }

  /** Where isInCheck's scan for a king of that colour stops. */
  ghost function KingCell(b: Board, white: bool): (s: Option<Cell>)
    ensures s.Some? ==> IsFirst(b, KingOf(white), s.value)
    ensures s.None? ==> forall t: Cell :: At(b, t) != KingOf(white)
  {
    assert (exists t: Cell :: At(b, t) == KingOf(white)) ==> exists f: Cell :: IsFirst(b, KingOf(white), f) by {
      if t: Cell :| At(b, t) == KingOf(white) { FirstExists(b, KingOf(white), t); }
    }
    if exists f: Cell :: IsFirst(b, KingOf(white), f) then
      var f: Cell :| IsFirst(b, KingOf(white), f);
      Some(f)
    else None
  }

  /** isInCheck */
  ghost function InCheckTo(l: Layout, white: bool, d: nat): Answer
    decreases d, 4
  {
    match KingCell(l.board, white)
    case None => No
    case Some(s) => AttackedTo(l, s, !white, d)
  }

  /** canCastle */
  ghost function CanCastleTo(l: Layout, king: char, f: Cell, t: Cell, d: nat): Answer
    requires TwoFiles(f, t)
    decreases d, 5
  {
    var white := IsWhite(king);
    match InCheckTo(l, white, d)
    case Yes => No
    case Unsettled => Unsettled
    case No =>
      if !Unmoved(l.moved, white, t.col > f.col) then No
      else if !PathClear(l.board, f, Corner(f, t)) then No
      else
        match AttackedTo(l, PassedOver(f, t), !white, d)
        case Yes => No
        case No => Yes
        case Unsettled => Unsettled
  }

  /** The board on which isLegal asks whether the mover's king is in check. */
  function Trial(b: Board, f: Cell, t: Cell): Board {
    Put(Put(b, t, At(b, f)), f, '.')
  }

  function TryMove(l: Layout, f: Cell, t: Cell): Layout {
    l.(board := Trial(l.board, f, t))
  }

  /** isLegal */
  ghost function LegalTo(l: Layout, whiteToMove: bool, f: Cell, t: Cell, d: nat): Answer {
    if !Holds(l.board, f, whiteToMove) then No
    else
      match GeometryTo(l, At(l.board, f), f, t, d)
      case No => No
      case Unsettled => Unsettled
      case Yes =>
        match InCheckTo(TryMove(l, f, t), whiteToMove, d)
        case Yes => No
        case No => Yes
        case Unsettled => Unsettled
  }
}
