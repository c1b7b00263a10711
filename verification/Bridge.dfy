/**
  The engine's coordinate bridge: a second, independent legality checker inside a search
  over the eight symmetries of the board.
 */
module Bridge {
  import opened Squares
  import opened Rules
  import opened Settling
  import opened GameState
  import opened Positions
  import opened Text
  import opened Fen

  datatype AIMove = AIMove(fromX: int, fromY: int, toX: int, toY: int, promotion: Option<char>) {
    predicate IsValid() { fromX >= 0 }
    function From(): Square { Square(fromX, fromY) }
    function To(): Square { Square(toX, toY) }
    predicate OnBoard() { From().OnBoard() && To().OnBoard() }
  }

  /** What Position knows of a game. */
  datatype Probe = Probe(board: Board, whiteToMove: bool, enPassant: Option<Cell>)

  // ------------------------------------------------------------ its own geometry

  ghost predicate PawnShape(q: Probe, p: char, f: Cell, t: Cell) {
    var dir := if IsWhite(p) then -1 else 1;
    var startRow := if IsWhite(p) then 6 else 1;
    var target := At(q.board, t);
    || (f.col == t.col && t.row == f.row + dir && target == '.')
    || (f.col == t.col && f.row == startRow && t.row == f.row + 2 * dir && target == '.'
        && q.board[f.row + dir][f.col] == '.')
    || (Abs(t.col - f.col) == 1 && t.row == f.row + dir && target != '.' && IsWhite(target) != IsWhite(p))
    || (Abs(t.col - f.col) == 1 && t.row == f.row + dir && target == '.' && q.enPassant == Some(t))
  }

  ghost predicate CastleShape(b: Board, king: char, f: Cell, t: Cell) {
    At(b, Corner(f, t)) == RookOf(IsWhite(king)) && PathClear(b, f, Corner(f, t))
  }

  /** Position.isLegalGeometry */
  ghost predicate Shape(q: Probe, p: char, f: Cell, t: Cell, allowCastle: bool) {
    var target := At(q.board, t);
    var dr, dc := Abs(t.row - f.row), Abs(t.col - f.col);
    && f != t
    && !(target != '.' && IsWhite(target) == IsWhite(p))
    && match p
       case 'P' | 'p' => PawnShape(q, p, f, t)
       case 'R' | 'r' => (f.row == t.row || f.col == t.col) && PathClear(q.board, f, t)
       case 'N' | 'n' => (dr == 2 && dc == 1) || (dr == 1 && dc == 2)
       case 'B' | 'b' => dr == dc && PathClear(q.board, f, t)
       case 'Q' | 'q' => (dr == dc || f.row == t.row || f.col == t.col) && PathClear(q.board, f, t)
       case 'K' | 'k' => (dr <= 1 && dc <= 1) || (allowCastle && dr == 0 && dc == 2 && CastleShape(q.board, p, f, t))
       case _ => false
  }

  ghost predicate ProbeAttacked(q: Probe, target: Cell, byWhite: bool) {
    exists s: Cell :: Holds(q.board, s, byWhite) && Shape(q, At(q.board, s), s, target, false)
  }

  ghost predicate ProbeInCheck(q: Probe, white: bool) {
    KingCell(q.board, white).Some? && ProbeAttacked(q, KingCell(q.board, white).value, !white)
  }

  /** Position.isLegal on squares of the board */
  ghost predicate ProbeLegal(q: Probe, f: Cell, t: Cell) {
    && Holds(q.board, f, q.whiteToMove)
    && Shape(q, At(q.board, f), f, t, true)
    && !ProbeInCheck(q.(board := Trial(q.board, f, t)), q.whiteToMove)
  }

  ghost predicate Accepts(q: Probe, m: AIMove) {
    m.IsValid() && m.OnBoard() && ProbeLegal(q, m.From(), m.To())
  }

  // --------------------------------------------------------------- the parser

  function SquareOf(s: string): Option<Cell> {
    if |s| == 2 && 'a' <= s[0] <= 'h' && '1' <= s[1] <= '8' then
      Some(Square(8 - ValueOf(s[1]), s[0] as int - 'a' as int))
    else None
  }

  function Lowered(s: string): string {
    if s == "" then "" else [ToLower(s[0])] + Lowered(s[1..])
  }

  /** Position.init: nothing unless there are eight ranks of exactly eight squares. */
  ghost function ParseOf(fen: string): Option<Probe> {
    var parts := Split(Trim(fen), ' ');
    var rows := Split(parts[0], '/');
    if |rows| == 8 && forall r :: 0 <= r < 8 ==> |Expand(rows[r])| == 8 then
      Some(Probe(
        seq(8, r requires 0 <= r < 8 => Expand(rows[r])),
        if |parts| > 1 then Lowered(parts[1]) == "w" else false,
        if |parts| > 3 then SquareOf(parts[3]) else None))
    else None
  }

  lemma SquareNames(s: Cell)
    ensures SquareOf(Algebraic(s)) == Some(s)
  {
  }

  lemma TrimKeeps(s: string)
    requires s != "" && !IsBlank(s[0]) && !IsBlank(s[|s| - 1])
    ensures Trim(s) == s
  {
  }

  lemma {:induction false} JoinEnds(parts: seq<string>, sep: char)
    requires parts != [] && parts[0] != "" && parts[|parts| - 1] != ""
    ensures Join(parts, sep) != ""
    ensures Join(parts, sep)[0] == parts[0][0]
    ensures Join(parts, sep)[|Join(parts, sep)| - 1] == parts[|parts| - 1][|parts[|parts| - 1]| - 1]
  {
    if |parts| == 2 {
      assert Join(parts[1..], sep) == parts[1];
    } else if |parts| > 2 {
      JoinEndsLast(parts[1..], sep);
    }
  }

  lemma {:induction false} JoinEndsLast(parts: seq<string>, sep: char)
    requires parts != [] && parts[|parts| - 1] != ""
    ensures Join(parts, sep) != ""
    ensures Join(parts, sep)[|Join(parts, sep)| - 1] == parts[|parts| - 1][|parts[|parts| - 1]| - 1]
  {
    if |parts| > 1 { JoinEndsLast(parts[1..], sep); }
  }

  lemma PrintedRowStarts(b: Board, r: nat)
    requires PieceBoard(b) && r < 8
    ensures PrintRows(b)[r] != "" && forall c :: c in PrintRows(b)[r] ==> !IsBlank(c)
  {
    ExpandedRows(b, r);
    PieceRowsArePlain(b, r);
    PrintedRowHasNoBlank(b[r], 0);
  }

  lemma {:induction false} PrintedRowHasNoBlank(row: seq<char>, empty: nat)
    requires PlainRow(row)
    ensures forall c :: c in PrintRow(row, empty) ==> !IsBlank(c)
  {
    if row != [] { PrintedRowHasNoBlank(row[1..], if row[0] == '.' then empty + 1 else 0); }
  }

  lemma FenIsTrim(st: State)
    requires PieceBoard(st.l.board)
    ensures Trim(FenOf(st)) == FenOf(st)
  {
    var rows, fields := PrintRows(st.l.board), Fields(st);
    PrintedRowStarts(st.l.board, 0);
    PrintedRowStarts(st.l.board, 7);
    JoinEnds(rows, '/');
    JoinEnds(fields, ' ');
    assert IsDigit(fields[5][|fields[5]| - 1]);
    TrimKeeps(FenOf(st));
  }

  lemma ParsedRows(b: Board)
    requires PieceBoard(b)
    ensures var rows := Split(Join(PrintRows(b), '/'), '/');
      && |rows| == 8 && (forall r :: 0 <= r < 8 ==> Expand(rows[r]) == b[r])
      && seq(8, r requires 0 <= r < 8 => Expand(rows[r])) == b
  {
    PrintedRowsSplit(b);
    forall r | 0 <= r < 8
      ensures Expand(PrintRows(b)[r]) == b[r]
    {
      ExpandedRows(b, r);
    }
  }

  lemma ParsesFields(fen: string, b: Board, parts: seq<string>)
    requires Split(Trim(fen), ' ') == parts && |parts| > 3
    requires PieceBoard(b) && parts[0] == Join(PrintRows(b), '/')
    ensures ParseOf(fen) == Some(Probe(b, Lowered(parts[1]) == "w", SquareOf(parts[3])))
  {
    ParsedRows(b);
  }

  /** The bridge reads back board, side and en-passant square of every printed position. */
  lemma ParsesWhatIsPrinted(st: State)
    requires PieceBoard(st.l.board)
    ensures ParseOf(FenOf(st)) == Some(Probe(st.l.board, st.whiteToMove, st.l.ep))
  {
    FenIsTrim(st);
    FenSplits(st);
    ParsesFields(FenOf(st), st.l.board, Fields(st));
    assert Lowered("w") == "w" && Lowered("b") == "b";
    if st.l.ep.Some? { SquareNames(st.l.ep.value); }
  }

  /** Whose move it is and the en-passant square, of any text that parses: the side's letter may be of either case. */
  lemma ParsedFields(fen: string)
    requires ParseOf(fen).Some?
    ensures var q, parts := ParseOf(fen).value, Split(Trim(fen), ' ');
      && (q.whiteToMove <==> |parts| > 1 && parts[1] in ["w", "W"])
      && forall s: Cell :: q.enPassant == Some(s) <==>
           |parts| > 3 && parts[3] == ["abcdefgh"[s.col], "87654321"[s.row]]
  {
    var parts := Split(Trim(fen), ' ');
    if |parts| > 1 { LoweredIsW(parts[1]); }
    forall s: Cell
      ensures |parts| > 3 ==> (SquareOf(parts[3]) == Some(s) <==> parts[3] == ["abcdefgh"[s.col], "87654321"[s.row]])
    {
      if |parts| > 3 { SquareTexts(parts[3], s); }
    }
  }

  lemma LoweredIsW(s: string)
    ensures Lowered(s) == "w" <==> s in ["w", "W"]
  {
    if |s| == 1 {
      assert s[1..] == "" && Lowered(s) == [ToLower(s[0])] + "" == [ToLower(s[0])];
      assert s == [s[0]];
    } else if |s| > 1 {
      assert |Lowered(s)| == 1 + |Lowered(s[1..])| && |Lowered(s[1..])| > 0;
    }
  }

  lemma SquareTexts(text: string, s: Cell)
    ensures SquareOf(text) == Some(s) <==> text == ["abcdefgh"[s.col], "87654321"[s.row]]
  {
    assert Algebraic(s) == ["abcdefgh"[s.col], "87654321"[s.row]];
    SquareNames(s);
    if SquareOf(text) == Some(s) { assert text == [text[0], text[1]]; }
  }

  // ------------------------------------------------------------ the two checkers

  ghost predicate Reads(q: Probe, l: Layout, white: bool) {
    q.board == l.board && q.whiteToMove == white && q.enPassant == l.ep
  }

  /** Castling aside, the two geometries agree on every board, piece and pair of squares. */
  lemma ShapesAgree(q: Probe, l: Layout, p: char, f: Cell, t: Cell, allowCastle: bool)
    requires q.board == l.board && q.enPassant == l.ep
    requires allowCastle ==> !(IsKing(p) && TwoFiles(f, t))
    ensures Shape(q, p, f, t, allowCastle) <==> Attacks(l, p, f, t)
  {
    if IsPawn(p) && !Barred(l.board, p, f, t) { PawnShapesAgree(q, l, p, f, t); }
  }

  lemma PawnShapesAgree(q: Probe, l: Layout, p: char, f: Cell, t: Cell)
    requires q.board == l.board && q.enPassant == l.ep && !Barred(l.board, p, f, t)
    ensures PawnShape(q, p, f, t) <==> PawnReach(l, IsWhite(p), f, t)
  {
    var dir := Forward(IsWhite(p));
    if f.col == t.col && f.row == PawnRow(IsWhite(p)) && t.row == f.row + 2 * dir {
      var mid: Cell := Square(f.row + dir, f.col);
      assert Between(f, mid, t) && At(q.board, mid) == q.board[f.row + dir][f.col];
      assert forall s: Cell :: Between(f, s, t) ==> s == mid;
    }
  }

  lemma ChecksAgree(q: Probe, l: Layout, white: bool)
    requires q.board == l.board && q.enPassant == l.ep
    ensures ProbeInCheck(q, white) <==> Checked(l, white)
  {
    if KingCell(l.board, white).Some? {
      var k := KingCell(l.board, white).value;
      forall s: Cell
        ensures Shape(q, At(q.board, s), s, k, false) <==> Attacks(l, At(l.board, s), s, k)
      {
        ShapesAgree(q, l, At(l.board, s), s, k, false);
      }
    }
  }

  /** On every board: off castling moves, the bridge's verdict is the game's plain one. */
  lemma VerdictsAgree(q: Probe, l: Layout, white: bool, f: Cell, t: Cell)
    requires Reads(q, l, white) && !CastlingShape(l.board, f, t)
    ensures ProbeLegal(q, f, t) <==> Legal(l, white, f, t)
  {
    ChecksAgree(q.(board := Trial(q.board, f, t)), TryMove(l, f, t), white);
    if Holds(l.board, f, white) && !Barred(l.board, At(l.board, f), f, t) {
      ShapesAgree(q, l, At(l.board, f), f, t, true);
    }
  }

  /** After the move no enemy king is two files along the rank from the mover's king. */
  ghost predicate KingsApart(b: Board, white: bool) {
    KingCell(b, white).Some? ==>
      forall s: Cell :: At(b, s) == KingOf(!white) ==> !TwoFiles(s, KingCell(b, white).value)
  }

  /** On every board whatever, at every depth: the two checkers agree where the game's settles. */
  lemma CheckersAgree(q: Probe, l: Layout, white: bool, f: Cell, t: Cell, d: nat)
    requires Reads(q, l, white) && !CastlingShape(l.board, f, t)
    requires KingsApart(Trial(l.board, f, t), white)
    ensures LegalTo(l, white, f, t, d) == Of(ProbeLegal(q, f, t))
  {
    VerdictsAgree(q, l, white, f, t);
    CheckApart(TryMove(l, f, t), white, d);
    if Holds(l.board, f, white) && !Barred(l.board, At(l.board, f), f, t) {
      PlainGeometry(l, At(l.board, f), f, t, d);
    }
  }

  /** With one king a side: they agree except where the game's test never settles. */
  lemma CheckersAgreeOrHang(q: Probe, l: Layout, white: bool, f: Cell, t: Cell, d: nat)
    requires Reads(q, l, white) && !CastlingShape(l.board, f, t) && SoleKings(l.board) && HomeKings(l) && d >= 2
    ensures LegalTo(l, white, f, t, d) ==
      if MayMove(l, white, f, t) && Standoff(TryMove(l, f, t)) then Unsettled else Of(ProbeLegal(q, f, t))
  {
    VerdictsAgree(q, l, white, f, t);
    LegalExact(l, white, f, t, d);
  }

  /** On every board: what the bridge takes for castling is a two-file king move toward an own rook over empty squares. */
  lemma BridgeCastles(q: Probe, l: Layout, white: bool, f: Cell, t: Cell)
    requires Reads(q, l, white) && CastlingShape(l.board, f, t)
    ensures ProbeLegal(q, f, t) <==>
      && At(l.board, f) == KingOf(white)
      && (if t.col > f.col then
            l.board[f.row][7] == RookOf(white) && forall c :: f.col < c < 7 ==> l.board[f.row][c] == '.'
          else
            l.board[f.row][0] == RookOf(white) && forall c :: 0 < c < f.col ==> l.board[f.row][c] == '.')
      && !Checked(TryMove(l, f, t), white)
  {
    ChecksAgree(q.(board := Trial(q.board, f, t)), TryMove(l, f, t), white);
    RankIsClear(l.board, f, Corner(f, t));
  }

  lemma RankIsClear(b: Board, f: Cell, t: Cell)
    requires f.row == t.row
    ensures PathClear(b, f, t) <==>
      forall c :: (f.col < c < t.col || t.col < c < f.col) ==> b[f.row][c] == '.'
  {
    if PathClear(b, f, t) {
      forall c | f.col < c < t.col || t.col < c < f.col
        ensures b[f.row][c] == '.'
      {
        assert Between(f, Square(f.row, c), t);
        assert At(b, Square(f.row, c)) == '.';
      }
    }
  }

  /** A castle that the game allows, with the rook on its corner, is one for the bridge too. */
  lemma CastlesAgree(q: Probe, l: Layout, white: bool, f: Cell, t: Cell)
    requires Reads(q, l, white) && CastlingShape(l.board, f, t) && Legal(l, white, f, t)
    requires At(l.board, Corner(f, t)) == RookOf(white)
    ensures ProbeLegal(q, f, t)
  {
    ChecksAgree(q.(board := Trial(q.board, f, t)), TryMove(l, f, t), white);
  }

  // ------------------------------------------------------------ the symmetries

  datatype Symmetry = Symmetry(swapAxes: bool, flipRows: bool, flipCols: bool)

  const IDENTITY := Symmetry(false, false, false)

  function Turn(g: Symmetry, s: Square): Square {
    var r, c := if g.swapAxes then s.col else s.row, if g.swapAxes then s.row else s.col;
    Square(if g.flipRows then 7 - r else r, if g.flipCols then 7 - c else c)
  }

  /** transform */
  function Image(g: Symmetry, m: AIMove): AIMove {
    var f, t := Turn(g, m.From()), Turn(g, m.To());
    AIMove(f.row, f.col, t.row, t.col, m.promotion)
  }

  /** The order in which normalize tries them. */
  function Order(g: Symmetry): nat {
    (if g.swapAxes then 4 else 0) + (if g.flipRows then 2 else 0) + (if g.flipCols then 1 else 0)
  }

  function Compose(g: Symmetry, h: Symmetry): Symmetry {
    Symmetry(
      g.swapAxes != h.swapAxes,
      g.flipRows != (if g.swapAxes then h.flipCols else h.flipRows),
      g.flipCols != (if g.swapAxes then h.flipRows else h.flipCols))
  }

  function Inverse(g: Symmetry): Symmetry {
    if g.swapAxes then Symmetry(true, g.flipCols, g.flipRows) else g
  }

  lemma ImagesCompose(g: Symmetry, h: Symmetry, m: AIMove)
    ensures Image(g, Image(h, m)) == Image(Compose(g, h), m)
  {
  }

  lemma SymmetriesDiffer(g: Symmetry, h: Symmetry)
    requires g != h
    ensures exists s: Cell :: Turn(g, s) != Turn(h, s)
  {
    var a, b, c: Cell := Square(0, 0), Square(0, 1), Square(1, 0);
    assert Turn(g, a) != Turn(h, a) || Turn(g, b) != Turn(h, b) || Turn(g, c) != Turn(h, c);
  }

  /** The eight transforms act as a group: closed, with identity and inverses, and all different. */
  lemma SymmetriesFormAGroup(g: Symmetry, h: Symmetry, k: Symmetry, m: AIMove)
    ensures Image(g, Image(h, m)) == Image(Compose(g, h), m)
    ensures Compose(g, Compose(h, k)) == Compose(Compose(g, h), k)
    ensures Image(IDENTITY, m) == m
    ensures Compose(g, Inverse(g)) == Compose(Inverse(g), g) == IDENTITY
    ensures g != h ==> exists s: Cell :: Turn(g, s) != Turn(h, s)
  {
    ImagesCompose(g, h, m);
    if g != h { SymmetriesDiffer(g, h); }
  }

  ghost predicate FirstAccepted(q: Probe, m: AIMove, g: Symmetry) {
    Accepts(q, Image(g, m)) && forall h: Symmetry :: Order(h) < Order(g) ==> !Accepts(q, Image(h, m))
  }

  /** The search of normalize, once the position is parsed. */
  ghost function Normalized(q: Probe, m: AIMove): Option<AIMove> {
    if m.IsValid() && exists g: Symmetry :: FirstAccepted(q, m, g) then
      var g: Symmetry :| FirstAccepted(q, m, g);
      Some(Image(g, m))
    else None
  }

  /** normalize */
  ghost function NormalizeOf(m: AIMove, fen: string): Option<AIMove> {
    match ParseOf(fen)
    case None => if m.IsValid() then Some(m) else None
    case Some(q) => Normalized(q, m)
  }

  lemma {:induction false} SomeIsFirst(q: Probe, m: AIMove, g: Symmetry)
    requires Accepts(q, Image(g, m))
    ensures exists f: Symmetry :: FirstAccepted(q, m, f)
    decreases Order(g)
  {
    if h: Symmetry :| Order(h) < Order(g) && Accepts(q, Image(h, m)) {
      SomeIsFirst(q, m, h);
    } else {
      assert FirstAccepted(q, m, g);
    }
  }

  lemma FirstIsNormal(q: Probe, m: AIMove, g: Symmetry)
    requires m.IsValid() && FirstAccepted(q, m, g)
    ensures Normalized(q, m) == Some(Image(g, m))
  {
    forall h: Symmetry | FirstAccepted(q, m, h)
      ensures h == g
    {
      assert Order(h) == Order(g);
    }
  }

  /** A move the bridge accepts as it stands comes back unchanged. */
  lemma AcceptedStays(q: Probe, m: AIMove)
    requires Accepts(q, m)
    ensures Normalized(q, m) == Some(m)
  {
    SymmetriesFormAGroup(IDENTITY, IDENTITY, IDENTITY, m);
    assert FirstAccepted(q, m, IDENTITY);
    FirstIsNormal(q, m, IDENTITY);
  }

  /** What normalize finds: an accepted image with the same promotion, and it is a fixed point. */
  lemma NormalizedIsSound(q: Probe, m: AIMove)
    ensures Normalized(q, m).Some? ==>
      var n := Normalized(q, m).value;
      && Accepts(q, n) && n.promotion == m.promotion
      && (exists g: Symmetry :: n == Image(g, m))
      && Normalized(q, n) == Some(n)
  {
    if Normalized(q, m).Some? { AcceptedStays(q, Normalized(q, m).value); }
  }

  /** It gives up exactly when no image is legal. */
  lemma NormalizedIsComplete(q: Probe, m: AIMove)
    requires m.IsValid()
    ensures Normalized(q, m).None? <==> forall g: Symmetry :: !Accepts(q, Image(g, m))
  {
    if g: Symmetry :| Accepts(q, Image(g, m)) { SomeIsFirst(q, m, g); }
  }

  /** A move from (r, c) to (r', c'), with the promotion of m. */
  function Redirected(m: AIMove, r: int, c: int, r': int, c': int): AIMove { AIMove(r, c, r', c', m.promotion) }

  /** The eight images in the order in which they are tried: as given, each axis flipped, and so again with the axes swapped. */
  function EightImages(m: AIMove): seq<AIMove> {
    var r, c, r', c' := m.fromX, m.fromY, m.toX, m.toY;
    [Redirected(m, r, c, r', c'), Redirected(m, r, 7 - c, r', 7 - c'),
     Redirected(m, 7 - r, c, 7 - r', c'), Redirected(m, 7 - r, 7 - c, 7 - r', 7 - c'),
     Redirected(m, c, r, c', r'), Redirected(m, c, 7 - r, c', 7 - r'),
     Redirected(m, 7 - c, r, 7 - c', r'), Redirected(m, 7 - c, 7 - r, 7 - c', 7 - r')]
  }

  ghost predicate FirstOfEight(q: Probe, m: AIMove, i: nat)
    requires i < 8
  {
    Accepts(q, EightImages(m)[i]) && forall j: nat :: j < i ==> !Accepts(q, EightImages(m)[j])
  }

  function NthSymmetry(i: nat): Symmetry
    requires i < 8
  {
    Symmetry(i >= 4, i % 4 >= 2, i % 2 == 1)
  }

  lemma ImageIsNth(m: AIMove, g: Symmetry)
    ensures Order(g) < 8 && g == NthSymmetry(Order(g)) && Image(g, m) == EightImages(m)[Order(g)]
  {
  }

  lemma NthIsImage(m: AIMove, i: nat)
    requires i < 8
    ensures Order(NthSymmetry(i)) == i && Image(NthSymmetry(i), m) == EightImages(m)[i]
  {
  }

  lemma FirstMeansFirst(q: Probe, m: AIMove, i: nat)
    requires i < 8
    ensures FirstOfEight(q, m, i) <==> FirstAccepted(q, m, NthSymmetry(i))
  {
    NthIsImage(m, i);
    if FirstOfEight(q, m, i) {
      forall h: Symmetry | Order(h) < i
        ensures !Accepts(q, Image(h, m))
      {
        ImageIsNth(m, h);
      }
    }
    if FirstAccepted(q, m, NthSymmetry(i)) {
      forall j: nat | j < i
        ensures !Accepts(q, EightImages(m)[j])
      {
        NthIsImage(m, j);
      }
    }
  }

  /** The search, exactly: its result is the first of the eight images, written out, that is legal. */
  lemma NormalizedIsFirst(q: Probe, m: AIMove, n: AIMove)
    ensures Normalized(q, m) == Some(n) <==>
      m.fromX >= 0 && exists i: nat :: i < 8 && n == EightImages(m)[i] && FirstOfEight(q, m, i)
  {
    if m.fromX >= 0 {
      if i: nat :| i < 8 && n == EightImages(m)[i] && FirstOfEight(q, m, i) {
        FirstMeansFirst(q, m, i);
        NthIsImage(m, i);
        FirstIsNormal(q, m, NthSymmetry(i));
      }
      if Normalized(q, m) == Some(n) {
        var g: Symmetry :| FirstAccepted(q, m, g) && n == Image(g, m);
        ImageIsNth(m, g);
        FirstMeansFirst(q, m, Order(g));
      }
    }
  }

  /** ... and a text with no well-formed placement lets every move pass that is one. */
  lemma NormalizedOfText(m: AIMove, fen: string, n: AIMove)
    ensures NormalizeOf(m, fen) == Some(n) <==>
      m.fromX >= 0 &&
      match ParseOf(fen)
      case None => n == m
      case Some(q) => exists i: nat :: i < 8 && n == EightImages(m)[i] && FirstOfEight(q, m, i)
  {
    if ParseOf(fen).Some? { NormalizedIsFirst(ParseOf(fen).value, m, n); }
  }

  /** An image accepted in one frame is an image in every other frame. */
  lemma SameImages(q: Probe, m: AIMove, g: Symmetry, h: Symmetry)
    ensures Image(h, Image(g, m)) == Image(Compose(h, g), m)
    ensures Image(h, m) == Image(Compose(h, Inverse(g)), Image(g, m))
  {
    ImagesCompose(h, g, m);
    ImagesCompose(Compose(h, Inverse(g)), g, m);
  }

  /** Whether an on-board move has a result does not depend on the frame it is given in. */
  lemma FramesDoNotMatter(q: Probe, m: AIMove, g: Symmetry)
    requires m.OnBoard()
    ensures Normalized(q, m).Some? <==> Normalized(q, Image(g, m)).Some?
  {
    NormalizedIsComplete(q, m);
    NormalizedIsComplete(q, Image(g, m));
    if h: Symmetry :| Accepts(q, Image(h, m)) {
      SameImages(q, m, g, h);
      assert Accepts(q, Image(Compose(h, Inverse(g)), Image(g, m)));
    }
    if h: Symmetry :| Accepts(q, Image(h, Image(g, m))) {
      SameImages(q, m, g, h);
      assert Accepts(q, Image(Compose(h, g), m));
    }
  }

  /**
    End to end: printed by the game, parsed by the bridge, a reply that the game allows
    (castling with its rook in place) passes normalize unchanged and is not refused.
   */
  lemma LegalRepliesPass(st: State, m: AIMove, d: nat)
    requires PieceBoard(st.l.board) && SoleKings(st.l.board) && HomeKings(st.l) && m.OnBoard()
    requires LegalTo(st.l, st.whiteToMove, m.From(), m.To(), d) == Yes
    requires CastlingShape(st.l.board, m.From(), m.To()) ==>
      At(st.l.board, Corner(m.From(), m.To())) == RookOf(st.whiteToMove)
    ensures NormalizeOf(m, FenOf(st)) == Some(m)
    ensures EngineTo(st, m.From(), m.To(), d).Some? ==> EngineTo(st, m.From(), m.To(), d).value.1.Some?
  {
    ParsesWhatIsPrinted(st);
    var q := Probe(st.l.board, st.whiteToMove, st.l.ep);
    LegalMeans(st.l, st.whiteToMove, m.From(), m.To(), d);
    LegalIsAccepted(q, st.l, st.whiteToMove, m.From(), m.To());
    AcceptedStays(q, m);
    LegalIsNotRefused(st, m.From(), m.To(), d);
  }

  lemma LegalIsNotRefused(st: State, f: Cell, t: Cell, d: nat)
    requires LegalTo(st.l, st.whiteToMove, f, t, d) == Yes
    ensures EngineTo(st, f, t, d).Some? ==> EngineTo(st, f, t, d).value.1.Some?
  {
  }

  lemma LegalIsAccepted(q: Probe, l: Layout, white: bool, f: Cell, t: Cell)
    requires Reads(q, l, white) && Legal(l, white, f, t)
    requires CastlingShape(l.board, f, t) ==> At(l.board, Corner(f, t)) == RookOf(white)
    ensures ProbeLegal(q, f, t)
  {
    if CastlingShape(l.board, f, t) { CastlesAgree(q, l, white, f, t); } else { VerdictsAgree(q, l, white, f, t); }
  }

  /**
    What becomes of a reply that normalize lets through: the game makes it, unless it is a
    castling move that the game's own castling test refuses, or its test never returns.
   */
  lemma NormalizedIsRefusedExactly(q: Probe, l: Layout, white: bool, m: AIMove, d: nat)
    requires Reads(q, l, white) && SoleKings(l.board) && HomeKings(l) && Normalized(q, m).Some? && d >= 2
    ensures var n := Normalized(q, m).value;
      && n.OnBoard()
      && var f: Cell, t: Cell := n.From(), n.To();
         && (LegalTo(l, white, f, t, d) == No <==>
               CastlingShape(l.board, f, t) && !Standoff(l) && !MayCastle(l, white, f, t))
         && (LegalTo(l, white, f, t, d) == Unsettled <==>
               || (CastlingShape(l.board, f, t) && Standoff(l))
               || (MayMove(l, white, f, t) && Standoff(TryMove(l, f, t))))
  {
    NormalizedIsSound(q, m);
    var n := Normalized(q, m).value;
    var f: Cell, t: Cell := n.From(), n.To();
    LegalExact(l, white, f, t, d);
    ChecksAgree(q.(board := Trial(q.board, f, t)), TryMove(l, f, t), white);
    if !CastlingShape(l.board, f, t) { VerdictsAgree(q, l, white, f, t); }
  }
}
