/** Printing a position in FEN (section 16.1 of the PGN Standard) and reading it back. */
module Fen {
  import opened Squares
  import opened Rules
  import opened GameState
  import opened Runs
  import opened Text

  // ------------------------------------------------------------------- printing

  function RunLength(empty: nat): string { if empty == 0 then "" else Decimal(empty) }

  /** A rank with its runs of empty squares counted; `empty` of them are already pending. */
  function PrintRow(row: seq<char>, empty: nat): string {
    if row == [] then RunLength(empty)
    else if row[0] == '.' then PrintRow(row[1..], empty + 1)
    else RunLength(empty) + [row[0]] + PrintRow(row[1..], 0)
  }

  function PrintRows(rows: seq<seq<char>>): (out: seq<string>)
    ensures |out| == |rows| && forall r :: 0 <= r < |rows| ==> out[r] == PrintRow(rows[r], 0)
  {
    if rows == [] then [] else [PrintRow(rows[0], 0)] + PrintRows(rows[1..])
  }

  function Algebraic(s: Cell): string { [('a' as int + s.col) as char, DigitOf(8 - s.row)] }

  /** One side's part of the castling field. */
  function Rights(l: Layout, white: bool): string {
    var king := At(l.board, HomeOf(white)) == KingOf(white);
    var row := if white then 7 else 0;
    (if Unmoved(l.moved, white, true) && king && l.board[row][7] == RookOf(white) then [KingOf(white)] else "")
    + (if Unmoved(l.moved, white, false) && king && l.board[row][0] == RookOf(white) then (if white then "Q" else "q") else "")
  }

  function CastlingField(l: Layout): string {
    if Rights(l, true) + Rights(l, false) == "" then "-" else Rights(l, true) + Rights(l, false)
  }

  predicate ResetsClock(r: Record) { IsPawn(r.piece) || r.captured != '.' }

  /** The halfmove clock of section 16.1.3.5, step by step: reset by a pawn move or a capture. */
  function HalfmoveClock(h: seq<Record>): nat {
    if h == [] || ResetsClock(h[|h| - 1]) then 0 else HalfmoveClock(h[..|h| - 1]) + 1
  }

  /** The fullmove number of section 16.1.3.6, step by step: one more after each move of Black's. */
  function FullmoveNumber(h: seq<Record>): nat {
    if h == [] then 1
    else FullmoveNumber(h[..|h| - 1]) + if IsWhite(h[|h| - 1].piece) then 0 else 1
  }

  function Fields(st: State): seq<string> {
    [Join(PrintRows(st.l.board), '/'),
     if st.whiteToMove then "w" else "b",
     CastlingField(st.l),
     if st.l.ep.Some? then Algebraic(st.l.ep.value) else "-",
     Decimal(HalfmoveClock(st.history)),
     Decimal(|st.history| / 2 + 1)]
  }

  /** exportFEN */
  function FenOf(st: State): string { Join(Fields(st), ' ') }

  /** A move that starts the clock anew: a pawn's, or one that takes a piece. */
  predicate Irreversible(r: Record) { r.piece in {'P', 'p'} || r.captured != '.' }

  /**
    The clock, exactly: the last so many moves were neither a pawn's nor a capture, and the one
    before them, if there is one, was.
   */
  lemma {:induction false} ClockMeans(h: seq<Record>, k: nat)
    ensures HalfmoveClock(h) <= |h|
    ensures k == HalfmoveClock(h) <==>
      && k <= |h| && (forall i :: |h| - k <= i < |h| ==> !Irreversible(h[i]))
      && (k < |h| ==> Irreversible(h[|h| - k - 1]))
  {
    if h != [] && !Irreversible(h[|h| - 1]) && k > 0 {
      var rest := h[..|h| - 1];
      ClockMeans(rest, k - 1);
      assert forall i :: 0 <= i < |rest| ==> rest[i] == h[i];
    } else if h != [] && !Irreversible(h[|h| - 1]) {
      ClockMeans(h[..|h| - 1], 0);
    }
  }

  /**
    The last four fields, in every game: the castling letters in the standard's order or a dash,
    the name of the en-passant square or a dash, and the clock and the move number in digits.
   */
  lemma FieldsMean(st: State)
    requires Derived(st)
    ensures |Fields(st)| == 6
    ensures Fields(st)[1] == if st.whiteToMove then "w" else "b"
    ensures Fields(st)[2] == "-" || (Fields(st)[2] != "" && IsInOrder(Fields(st)[2]))
    ensures Fields(st)[3] == "-" <==> st.l.ep.None?
    ensures forall s: Cell :: st.l.ep == Some(s) <==> Fields(st)[3] == ["abcdefgh"[s.col], "87654321"[s.row]]
    ensures Fields(st)[4] == Decimal(HalfmoveClock(st.history))
    ensures Fields(st)[5] == Decimal(FullmoveNumber(st.history))
  {
    FullmoveFieldIsRight(st);
    RightsInOrder(st.l);
    if st.l.ep.Some? { NamesSquare(st.l.ep.value); }
    forall s: Cell
      ensures st.l.ep == Some(s) <==> Fields(st)[3] == ["abcdefgh"[s.col], "87654321"[s.row]]
    {
      NamesSquare(s);
    }
  }

  lemma NamesSquare(s: Cell)
    ensures Algebraic(s) == ["abcdefgh"[s.col], "87654321"[s.row]]
  {
  }

  function LetterIf(shown: bool, letter: char): string { if shown then [letter] else "" }

  lemma RightsOfSide(l: Layout, white: bool) returns (king: bool, queen: bool)
    ensures Rights(l, white) == LetterIf(king, if white then 'K' else 'k') + LetterIf(queen, if white then 'Q' else 'q')
  {
    var home := At(l.board, HomeOf(white)) == KingOf(white);
    king := Unmoved(l.moved, white, true) && home && l.board[if white then 7 else 0][7] == RookOf(white);
    queen := Unmoved(l.moved, white, false) && home && l.board[if white then 7 else 0][0] == RookOf(white);
  }

  lemma LettersInOrder(c: string, k: bool, q: bool, k': bool, q': bool)
    requires c == LetterIf(k, 'K') + LetterIf(q, 'Q') + (LetterIf(k', 'k') + LetterIf(q', 'q'))
    ensures (k <==> 'K' in c) && (q <==> 'Q' in c) && (k' <==> 'k' in c) && (q' <==> 'q' in c)
    ensures c == LetterIf(k, 'K') + LetterIf(q, 'Q') + LetterIf(k', 'k') + LetterIf(q', 'q') && c != "-"
  {
  }

  lemma RightsInOrder(l: Layout)
    ensures CastlingField(l) == "-" || IsInOrder(CastlingField(l))
    ensures CastlingField(l) != ""
  {
    var k, q := RightsOfSide(l, true);
    var k', q' := RightsOfSide(l, false);
    LettersInOrder(Rights(l, true) + Rights(l, false), k, q, k', q');
  }

  /** The four letters, each at most once, in the order of section 16.1.3.3. */
  predicate IsInOrder(c: string) {
    c == LetterIf('K' in c, 'K') + LetterIf('Q' in c, 'Q') + LetterIf('k' in c, 'k') + LetterIf('q' in c, 'q')
  }

  lemma FenIs(st: State, placement: string, side: string, castling: string, ep: string, half: string, full: string)
    requires Fields(st) == [placement, side, castling, ep, half, full]
    ensures FenOf(st) == placement + " " + side + " " + castling + " " + ep + " " + half + " " + full
  {
    JoinSix(placement, side, castling, ep, half, full);
  }

  /** In every game, taken back or not, the printed fullmove field is the standard's counter. */
  lemma {:induction false} FullmoveFieldIsRight(st: State)
    requires Derived(st)
    ensures |st.history| / 2 + 1 == FullmoveNumber(st.history)
  {
    FullmoveByParity(st.history);
  }

  lemma {:induction false} FullmoveByParity(h: seq<Record>)
    requires forall i :: 0 <= i < |h| ==> DerivedRecord(h, i)
    ensures |h| / 2 + 1 == FullmoveNumber(h)
  {
    if h != [] {
      var rest := h[..|h| - 1];
      assert DerivedRecord(h, |rest|);
      forall i | 0 <= i < |rest|
        ensures DerivedRecord(rest, i)
      {
        assert DerivedRecord(h, i) && rest[..i] == h[..i];
      }
      FullmoveByParity(rest);
    }
  }

  // -------------------------------------------------------------------- reading

  function Dots(n: nat): (row: seq<char>)
    ensures |row| == n && forall k :: 0 <= k < n ==> row[k] == '.'
  {
    seq(n, _ => '.')
  }

  function ExpandChar(c: char): seq<char> { if IsDigit(c) then Dots(ValueOf(c)) else [c] }

  /** The squares that a rank's description stands for. */
  function Expand(s: string): seq<char> {
    if s == "" then [] else ExpandChar(s[0]) + Expand(s[1..])
  }

  /** Cut off, or filled up with empty squares, to eight. */
  function Fit(row: seq<char>): (r: seq<char>)
    ensures |r| == 8
  {
    (row + Dots(8))[..8]
  }

  function LoadedRow(rows: seq<string>, r: nat): (row: seq<char>)
    ensures |row| == 8
  {
    if r < |rows| then Fit(Expand(rows[r])) else Dots(8)
  }

  function LoadedBoard(placement: string): (b: Board)
    ensures forall r :: 0 <= r < 8 ==> b[r] == LoadedRow(Split(placement, '/'), r)
  {
    var rows := Split(placement, '/');
    seq(8, r requires 0 <= r < 8 => LoadedRow(rows, r))
  }

  /** load: only the placement and the side to move are read. */
  function LoadOf(st: State, fen: string): State {
    var parts := Split(fen, ' ');
    st.(l := st.l.(board := LoadedBoard(parts[0])),
        whiteToMove := if |parts| > 1 then parts[1] == "w" else st.whiteToMove,
        lastFrom := None, lastTo := None)
  }

  /** row holds the first c squares that were read, and is empty beyond them. */
  ghost predicate Filled(row: seq<char>, c: nat, read: seq<char>) {
    && |row| == 8 && c == (if |read| < 8 then |read| else 8)
    && (forall k :: 0 <= k < c ==> row[k] == read[k])
    && (forall k :: c <= k < 8 ==> row[k] == '.')
  }

  lemma FilledMore(row: seq<char>, c: nat, read: seq<char>, ch: char)
    requires Filled(row, c, read)
    ensures if c < 8 then Filled(row[c := ch], c + 1, read + [ch]) else Filled(row, c, read + [ch])
  {
  }

  lemma FilledFits(row: seq<char>, c: nat, read: seq<char>)
    requires Filled(row, c, read)
    ensures row == Fit(read)
  {
  }

  // ----------------------------------------------------------------- round trips

  lemma {:induction false} ExpandConcat(s: string, t: string)
    ensures Expand(s + t) == Expand(s) + Expand(t)
  {
    if s == "" {
      assert s + t == t;
    } else {
      assert (s + t)[1..] == s[1..] + t;
      ExpandConcat(s[1..], t);
    }
  }

  lemma ExpandOneMore(s: string, i: nat)
    requires i < |s|
    ensures Expand(s[..i + 1]) == Expand(s[..i]) + ExpandChar(s[i])
  {
    assert s[..i + 1] == s[..i] + [s[i]];
    ExpandConcat(s[..i], [s[i]]);
    assert [s[i]][1..] == "";
  }

  lemma ExpandLonger(s: string, i: nat)
    requires i <= |s|
    ensures |Expand(s)| >= |Expand(s[..i])|
  {
    ExpandConcat(s[..i], s[i..]);
    assert s == s[..i] + s[i..];
  }

  lemma ExpandRunLength(n: nat)
    requires n <= 8
    ensures Expand(RunLength(n)) == Dots(n)
  {
    if n > 0 {
      assert Decimal(n) == [DigitOf(n)];
      assert Decimal(n)[1..] == "";
    }
  }

  predicate PlainRow(row: seq<char>) {
    forall k :: 0 <= k < |row| ==> !IsDigit(row[k]) && row[k] != '/' && !IsBlank(row[k])
  }

  lemma ExpandOne(c: char)
    requires !IsDigit(c)
    ensures Expand([c]) == [c]
  {
    assert [c][1..] == "";
  }

  lemma ExpandPiece(empty: nat, c: char, rest: string)
    requires empty <= 8 && !IsDigit(c)
    ensures Expand(RunLength(empty) + [c] + rest) == Dots(empty) + [c] + Expand(rest)
  {
    ExpandRunLength(empty);
    ExpandOne(c);
    ExpandConcat(RunLength(empty) + [c], rest);
    ExpandConcat(RunLength(empty), [c]);
  }

  lemma ExpandAfterDot(row: seq<char>, empty: nat)
    requires row != [] && row[0] == '.' && Expand(PrintRow(row[1..], empty + 1)) == Dots(empty + 1) + row[1..]
    ensures Expand(PrintRow(row, empty)) == Dots(empty) + row
  {
    assert Dots(empty + 1) + row[1..] == Dots(empty) + row;
  }

  lemma ExpandAfterPiece(c: char, rest: string, tail: seq<char>, empty: nat)
    requires !IsDigit(c) && empty <= 8 && Expand(rest) == tail
    ensures Expand(RunLength(empty) + [c] + rest) == Dots(empty) + ([c] + tail)
  {
    ExpandPiece(empty, c, rest);
    assert Dots(empty) + [c] + tail == Dots(empty) + ([c] + tail);
  }

  /** A printed rank expands to itself. */
  lemma {:induction false} ExpandPrintRow(row: seq<char>, empty: nat)
    requires PlainRow(row) && empty + |row| <= 8
    ensures Expand(PrintRow(row, empty)) == Dots(empty) + row
  {
    if row == [] {
      ExpandRunLength(empty);
      assert Dots(empty) + row == Dots(empty);
    } else if row[0] == '.' {
      ExpandPrintRow(row[1..], empty + 1);
      ExpandAfterDot(row, empty);
    } else {
      ExpandPrintRow(row[1..], 0);
      assert Dots(0) + row[1..] == row[1..];
      ExpandAfterPiece(row[0], PrintRow(row[1..], 0), row[1..], empty);
      assert row == [row[0]] + row[1..];
    }
  }

  lemma RunLengthIsPlain(n: nat)
    ensures '/' !in RunLength(n) && ' ' !in RunLength(n)
  {
  }

  lemma {:induction false} PrintedRowIsPlain(row: seq<char>, empty: nat)
    requires PlainRow(row)
    ensures '/' !in PrintRow(row, empty) && ' ' !in PrintRow(row, empty)
  {
    RunLengthIsPlain(empty);
    if row != [] { PrintedRowIsPlain(row[1..], if row[0] == '.' then empty + 1 else 0); }
  }

  lemma {:induction false} JoinIsPlain(parts: seq<string>, sep: char, c: char)
    requires c != sep && forall p :: p in parts ==> c !in p
    ensures c !in Join(parts, sep)
  {
    if |parts| > 1 { JoinIsPlain(parts[1..], sep, c); }
  }

  /** Every cell holds one of the twelve piece letters or nothing. */
  predicate PieceBoard(b: Board) {
    forall r, c :: 0 <= r < 8 && 0 <= c < 8 ==> IsPieceOrEmpty(b[r][c])
  }

  lemma PieceRowsArePlain(b: Board, r: nat)
    requires PieceBoard(b) && r < 8
    ensures PlainRow(b[r])
  {
    forall c | 0 <= c < 8
      ensures !IsDigit(b[r][c]) && b[r][c] != '/' && !IsBlank(b[r][c])
    {
      assert IsPieceOrEmpty(b[r][c]);
    }
  }

  lemma PrintedRowsSplit(b: Board)
    requires PieceBoard(b)
    ensures Split(Join(PrintRows(b), '/'), '/') == PrintRows(b)
    ensures ' ' !in Join(PrintRows(b), '/')
  {
    var rows := PrintRows(b);
    forall p | p in rows
      ensures '/' !in p && ' ' !in p
    {
      var r :| 0 <= r < 8 && rows[r] == p;
      PieceRowsArePlain(b, r);
      PrintedRowIsPlain(b[r], 0);
    }
    SplitJoin(rows, '/');
    JoinIsPlain(rows, '/', ' ');
  }

  lemma SixArePlain(parts: seq<string>, a: string, b: string, c: string, d: string, e: string, f: string)
    requires parts == [a, b, c, d, e, f]
    requires ' ' !in a && ' ' !in b && ' ' !in c && ' ' !in d && ' ' !in e && ' ' !in f
    ensures forall p :: p in parts ==> ' ' !in p
  {
  }

  lemma FieldsArePlain(st: State)
    requires PieceBoard(st.l.board)
    ensures forall p :: p in Fields(st) ==> ' ' !in p
  {
    PrintedRowsSplit(st.l.board);
    CastlingIsPlain(st.l);
    DecimalIsPlain(HalfmoveClock(st.history));
    DecimalIsPlain(|st.history| / 2 + 1);
    SquareIsPlain(st.l.ep);
    var a, c := Join(PrintRows(st.l.board), '/'), CastlingField(st.l);
    var e := if st.l.ep.Some? then Algebraic(st.l.ep.value) else "-";
    var h, n := Decimal(HalfmoveClock(st.history)), Decimal(|st.history| / 2 + 1);
    SideIsPlain(st.whiteToMove);
    SixArePlain(Fields(st), a, if st.whiteToMove then "w" else "b", c, e, h, n);
  }

  lemma SideIsPlain(white: bool)
    ensures ' ' !in (if white then "w" else "b")
  {
  }

  lemma SquareIsPlain(ep: Option<Cell>)
    ensures ' ' !in (if ep.Some? then Algebraic(ep.value) else "-")
  {
  }

  lemma CastlingIsPlain(l: Layout)
    ensures ' ' !in CastlingField(l)
  {
    forall white: bool
      ensures ' ' !in Rights(l, white)
    {
    }
  }

  lemma DecimalIsPlain(n: nat)
    ensures ' ' !in Decimal(n)
  {
  }

  /** Splitting a printed position at spaces gives back its six fields. */
  lemma FenSplits(st: State)
    requires PieceBoard(st.l.board)
    ensures Split(FenOf(st), ' ') == Fields(st)
  {
    FieldsArePlain(st);
    SplitJoin(Fields(st), ' ');
  }

  lemma ExpandedRows(b: Board, r: nat)
    requires PieceBoard(b) && r < 8
    ensures Expand(PrintRows(b)[r]) == b[r]
  {
    PieceRowsArePlain(b, r);
    ExpandPrintRow(b[r], 0);
    assert Dots(0) + b[r] == b[r];
  }

  lemma LoadedRows(b: Board)
    requires PieceBoard(b)
    ensures LoadedBoard(Join(PrintRows(b), '/')) == b
  {
    PrintedRowsSplit(b);
    var b' := LoadedBoard(Join(PrintRows(b), '/'));
    forall r | 0 <= r < 8
      ensures b'[r] == b[r]
    {
      ExpandedRows(b, r);
      assert Fit(b[r]) == b[r];
      assert b'[r] == LoadedRow(PrintRows(b), r);
    }
  }

  /** Loading what was printed restores the board and the side to move, forgets the last move and keeps the rest. */
  lemma LoadRestores(st: State, into: State)
    requires PieceBoard(st.l.board)
    ensures LoadOf(into, FenOf(st)) == into.(
      l := into.l.(board := st.l.board), whiteToMove := st.whiteToMove, lastFrom := None, lastTo := None)
  {
    FenSplits(st);
    LoadedRows(st.l.board);
  }

  /** A placement alone is loaded for the side that was to move. */
  lemma PlacementLoads(b: Board, into: State)
    requires PieceBoard(b)
    ensures LoadOf(into, Join(PrintRows(b), '/')) == into.(l := into.l.(board := b), lastFrom := None, lastTo := None)
  {
    PrintedRowsSplit(b);
    LoadedRows(b);
    SplitWhole(Join(PrintRows(b), '/'), ' ');
  }

  /** Ranks that are missing or too short are filled up with empty squares, and what is too much is left out. */
  lemma LoadedCell(placement: string, s: Cell)
    ensures var rows := Split(placement, '/');
      At(LoadedBoard(placement), s) ==
        if s.row < |rows| && s.col < |Expand(rows[s.row])| then Expand(rows[s.row])[s.col] else '.'
  {
    assert LoadedBoard(placement)[s.row] == LoadedRow(Split(placement, '/'), s.row);
  }
}
