/** Reading moves in standard algebraic notation (section 8.2.3 of the PGN Standard). */
module San {
  import opened Squares
  import opened Rules
  import opened Settling
  import opened GameState
  import opened Positions
  import opened Text
  import opened Fen
  import opened Replay

  // ------------------------------------------------------------------- the text

  predicate IsMark(c: char) { c == '+' || c == '#' || c == '!' || c == '?' }

  function WithoutMarks(s: string): string {
    if s == "" then ""
    else (if IsMark(s[0]) then "" else [s[0]]) + WithoutMarks(s[1..])
  }

  function Without(s: string, c: char): string {
    if s == "" then "" else (if s[0] == c then "" else [s[0]]) + Without(s[1..], c)
  }

  /** The part before the first c, and what follows it if there is one. */
  function CutAt(s: string, c: char): (string, Option<string>) {
    if s == "" then ("", None)
    else if s[0] == c then ("", Some(s[1..]))
    else
      var (head, tail) := CutAt(s[1..], c);
      ([s[0]] + head, tail)
  }

  function FileHint(s: string): Option<int> {
    if s == "" then None
    else if FileIndex(s[|s| - 1]).Some? then FileIndex(s[|s| - 1])
    else FileHint(s[..|s| - 1])
  }

  function RankHint(s: string): Option<int> {
    if s == "" then None
    else
      var c := s[|s| - 1];
      if FileIndex(c).None? && '1' <= c <= '8' then Some(8 - ValueOf(c)) else RankHint(s[..|s| - 1])
  }

  /** What a SAN text asks for: a piece letter, where the piece may come from, and its destination. */
  datatype Request =
    | Nothing
    | Castle(kingside: bool)
    | Move(letter: char, file: Option<int>, rank: Option<int>, dest: Cell, promotion: Option<char>)

  function ParseCore(core: string, promotion: Option<char>): Request {
    if |core| < 2 then Nothing
    else
      match NamedSquare(core[|core| - 2..])
      case None => Nothing
      case Some(dest) =>
        var prefix := core[..|core| - 2];
        var named := prefix != "" && prefix[0] in "KQRBN";
        var from := if named then prefix[1..] else prefix;
        Move(if named then prefix[0] else 'P', FileHint(from), RankHint(from), dest, promotion)
  }

  function Parse(san: string): Request {
    var s := WithoutMarks(Trim(san));
    if s == "" then Nothing
    else if s == "O-O" || s == "0-0" then Castle(true)
    else if s == "O-O-O" || s == "0-0-0" then Castle(false)
    else
      var (head, tail) := CutAt(s, '=');
      var promotion := if tail.Some? && tail.value != "" then Some(ToUpper(tail.value[0])) else None;
      ParseCore(Without(head, 'x'), promotion)
  }

  // --------------------------------------------------------------- the resolution

  function Wanted(white: bool, letter: char): char { if white then letter else ToLower(letter) }

  predicate Candidate(st: State, r: Request, s: Cell)
    requires r.Move?
  {
    && At(st.l.board, s) == Wanted(st.whiteToMove, r.letter)
    && (r.file.Some? ==> s.col == r.file.value)
    && (r.rank.Some? ==> s.row == r.rank.value)
    && s != r.dest
  }

  /** A piece of the kind asked for, that the hints allow, with a legal move to the destination. */
  ghost predicate Fits(st: State, r: Request, d: nat, s: Cell)
    requires r.Move?
  {
    Candidate(st, r, s) && LegalTo(st.l, st.whiteToMove, s, r.dest, d) == Yes
  }

  ghost predicate FitsAlone(st: State, r: Request, d: nat, s: Cell)
    requires r.Move?
  {
    Fits(st, r, d, s) && forall s': Cell :: Fits(st, r, d, s') ==> s' == s
  }

  /** Every legality test that the request needs settles. */
  ghost predicate Settles(st: State, r: Request, d: nat) {
    r.Move? ==> forall s: Cell :: Candidate(st, r, s) ==> LegalTo(st.l, st.whiteToMove, s, r.dest, d) != Unsettled
  }

  /** resolve */
  ghost function Resolved(st: State, san: string, d: nat): Option<(Cell, Cell, Option<char>)> {
    var r := Parse(san);
    match r
    case Nothing => None
    case Castle(kingside) =>
      var from := HomeOf(st.whiteToMove);
      if At(st.l.board, from) == KingOf(st.whiteToMove) then
        Some((from, Square(from.row, if kingside then 6 else 2), None))
      else None
    case Move(_, _, _, _, _) =>
      if exists s: Cell :: FitsAlone(st, r, d, s) then
        var s: Cell :| FitsAlone(st, r, d, s);
        Some((s, r.dest, r.promotion))
      else None
  }

  /** A move text resolves to a square exactly when one and only one piece fits. */
  lemma ResolvesExactly(st: State, san: string, d: nat, from: Cell)
    requires Parse(san).Move?
    ensures var r := Parse(san);
      Resolved(st, san, d) == Some((from, r.dest, r.promotion)) <==> FitsAlone(st, r, d, from)
  {
  }

  // ------------------------------------------------------------------ writing SAN

  /** Other pieces of the same kind with a legal move to the same square. */
  ghost predicate Rival(st: State, f: Cell, t: Cell, d: nat, s: Cell) {
    s != f && At(st.l.board, s) == At(st.l.board, f) && LegalTo(st.l, st.whiteToMove, s, t, d) == Yes
  }

  function FileName(s: Cell): string { [('a' as int + s.col) as char] }

  function RankName(s: Cell): string { [DigitOf(8 - s.row)] }

  /** Section 8.2.3.4: the file if that is enough, else the rank, else both; a capturing pawn's file always. */
  ghost function Disambiguation(st: State, f: Cell, t: Cell, d: nat): string {
    if IsPawn(At(st.l.board, f)) then (if f.col != t.col then FileName(f) else "")
    else if forall s: Cell :: !Rival(st, f, t, d, s) then ""
    else if forall s: Cell :: Rival(st, f, t, d, s) ==> s.col != f.col then FileName(f)
    else if forall s: Cell :: Rival(st, f, t, d, s) ==> s.row != f.row then RankName(f)
    else FileName(f) + RankName(f)
  }

  function Letter(p: char): string { if IsPawn(p) then "" else [ToUpper(p)] }

  ghost function Written(st: State, f: Cell, t: Cell, promotion: Option<char>, suffix: string, d: nat): string {
    Letter(At(st.l.board, f)) + Disambiguation(st, f, t, d)
    + (if At(st.l.board, t) != '.' || EnPassantCapture(st.l.board, f, t) then "x" else "")
    + Algebraic(t)
    + PromotionText(promotion) + suffix
  }

  // ------------------------------------------------------- the writer is read back

  predicate IsName(c: char) { 'a' <= c <= 'h' || '1' <= c <= '8' || c in "KQRBN" }

  lemma {:induction false} CleanConcat(a: string, b: string)
    ensures WithoutMarks(a + b) == WithoutMarks(a) + WithoutMarks(b)
  {
    if a == "" {
      assert a + b == b;
    } else {
      var s := a + b;
      assert s[1..] == a[1..] + b;
      assert s[0] == a[0];
      CleanConcat(a[1..], b);
      assert WithoutMarks(s) == (if IsMark(s[0]) then "" else [s[0]]) + WithoutMarks(s[1..]);
    }
  }

  /** Exactly the four signs for check, mate and comment are dropped, wherever they stand. */
  lemma {:induction false} MarksAreDropped(s: string, c: char)
    ensures c in WithoutMarks(s) <==> c in s && c !in "+#!?"
  {
    if s != "" {
      MarksAreDropped(s[1..], c);
      assert s == [s[0]] + s[1..];
    }
  }

  lemma {:induction false} CleanKeeps(a: string)
    requires forall c :: c in a ==> !IsMark(c)
    ensures WithoutMarks(a) == a
  {
    if a != "" { CleanKeeps(a[1..]); }
  }

  lemma {:induction false} CleanDrops(a: string)
    requires forall c :: c in a ==> IsMark(c)
    ensures WithoutMarks(a) == ""
  {
    if a != "" { CleanDrops(a[1..]); }
  }

  lemma {:induction false} WithoutKeeps(a: string, b: string, c: char)
    requires c !in a
    ensures Without(a + b, c) == a + Without(b, c)
  {
    if a == "" {
      assert a + b == b;
    } else {
      WithoutKeeps(a[1..], b, c);
      assert (a + b)[1..] == a[1..] + b;
    }
  }

  lemma {:induction false} CutsAt(a: string, b: string, c: char)
    requires c !in a
    ensures CutAt(a, c) == (a, None)
    ensures CutAt(a + [c] + b, c) == (a, Some(b))
  {
    if a == "" {
      assert (a + [c] + b)[1..] == b;
    } else {
      CutsAt(a[1..], b, c);
      assert a == [a[0]] + a[1..];
      assert (a + [c] + b)[1..] == a[1..] + [c] + b;
    }
  }

  lemma TrimKeepsUnblank(s: string)
    requires forall c :: c in s ==> !IsBlank(c)
    ensures Trim(s) == s
  {
  }

  lemma {:induction false} BlanksLeft(a: string, s: string)
    requires forall c :: c in a ==> c in " \t"
    ensures TrimLeft(a + s) == TrimLeft(s)
  {
    if a == "" {
      assert a + s == s;
    } else {
      BlanksLeft(a[1..], s);
      assert a[0] in a && (a + s)[1..] == a[1..] + s;
    }
  }

  lemma {:induction false} BlanksRight(s: string, b: string)
    requires forall c :: c in b ==> c in " \t"
    ensures TrimRight(s + b) == TrimRight(s)
  {
    if b == "" {
      assert s + b == s;
    } else {
      BlanksRight(s, b[..|b| - 1]);
      assert b[|b| - 1] in b && (s + b)[..|s + b| - 1] == s + b[..|b| - 1];
    }
  }

  lemma {:induction false} LeftOfMore(s: string, b: string)
    requires s != "" && !IsBlank(s[|s| - 1])
    ensures TrimLeft(s + b) == TrimLeft(s) + b
  {
    if IsBlank(s[0]) {
      LeftOfMore(s[1..], b);
      assert (s + b)[1..] == s[1..] + b;
    }
  }

  /** White space around a move text does not matter. */
  lemma BlanksDoNotMatter(a: string, s: string, b: string)
    requires forall c :: c in a + b ==> c in " \t"
    requires s != "" && s[|s| - 1] !in " \t"
    ensures Trim(a + s + b) == Trim(s) && Parse(a + s + b) == Parse(s)
  {
    assert a + s + b == a + (s + b);
    BlanksLeft(a, s + b);
    LeftOfMore(s, b);
    BlanksRight(TrimLeft(s), b);
  }

  /** The text before any promotion: name characters, with one x allowed before the destination. */
  predicate BodyOk(origin: string, body: string, t: Cell) {
    && (forall c :: c in origin ==> IsName(c))
    && (body == origin + Algebraic(t) || body == origin + "x" + Algebraic(t))
  }

  lemma BodyIsPlain(origin: string, body: string, t: Cell)
    requires BodyOk(origin, body, t)
    ensures forall c :: c in body ==> IsName(c) || c == 'x'
    ensures Without(body, 'x') == origin + Algebraic(t)
  {
    var a := Algebraic(t);
    assert forall c :: c in a ==> IsName(c);
    assert Without("", 'x') == "";
    WithoutKeeps(a, "", 'x');
    assert a + "" == a;
    WithoutKeeps(origin, a, 'x');
    WithoutKeeps(origin, "x" + a, 'x');
    assert ("x" + a)[1..] == a;
    assert origin + "x" + a == origin + ("x" + a);
  }

  lemma CleansTo(s: string, suffix: string)
    requires forall c :: c in s ==> !IsMark(c) && !IsBlank(c)
    requires forall c :: c in suffix ==> c in "+#!?"
    ensures WithoutMarks(Trim(s + suffix)) == s
  {
    TrimKeepsUnblank(s + suffix);
    CleanConcat(s, suffix);
    CleanKeeps(s);
    CleanDrops(suffix);
    assert s + "" == s;
  }

  /** A text with no castling dash goes on to be cut at its equals sign. */
  lemma ParsesAsMove(san: string)
    requires var s := WithoutMarks(Trim(san)); s != "" && '-' !in s
    ensures var (head, tail) := CutAt(WithoutMarks(Trim(san)), '=');
      Parse(san) == ParseCore(Without(head, 'x'),
        if tail.Some? && tail.value != "" then Some(ToUpper(tail.value[0])) else None)
  {
    assert "O-O"[1] == '-' && "0-0"[1] == '-' && "O-O-O"[1] == '-' && "0-0-0"[1] == '-';
  }

  function PromotionText(promotion: Option<char>): string {
    if promotion.Some? then ['=', promotion.value] else ""
  }

  lemma BodyIsClean(origin: string, body: string, t: Cell, promotion: Option<char>)
    requires BodyOk(origin, body, t)
    requires promotion.Some? ==> promotion.value in "QRBNqrbn"
    ensures body != "" && '=' !in body
    ensures forall c :: c in body + PromotionText(promotion) ==> !IsMark(c) && !IsBlank(c) && c != '-'
  {
    BodyIsPlain(origin, body, t);
    assert forall c :: IsName(c) || c == 'x' ==> !IsMark(c) && !IsBlank(c) && c != '-' && c != '=';
    assert forall c :: c in PromotionText(promotion) ==> c == '=' || c in "QRBNqrbn";
  }

  lemma CutsPromotion(body: string, promotion: Option<char>)
    requires '=' !in body
    ensures var (head, tail) := CutAt(body + PromotionText(promotion), '=');
      head == body && tail == if promotion.Some? then Some([promotion.value]) else None
  {
    CutsAt(body, if promotion.Some? then [promotion.value] else "", '=');
    if promotion.Some? {
      assert body + PromotionText(promotion) == body + ['='] + [promotion.value];
    } else {
      assert body + PromotionText(promotion) == body;
    }
  }

  /** The promotion's letter may be of either case. */
  lemma BodyParses(origin: string, body: string, t: Cell, promotion: Option<char>, suffix: string)
    requires BodyOk(origin, body, t)
    requires promotion.Some? ==> promotion.value in "QRBNqrbn"
    requires forall c :: c in suffix ==> c in "+#!?"
    ensures Parse(body + PromotionText(promotion) + suffix) ==
      ParseCore(origin + Algebraic(t), if promotion.Some? then Some(ToUpper(promotion.value)) else None)
  {
    BodyIsPlain(origin, body, t);
    BodyIsClean(origin, body, t, promotion);
    var s := body + PromotionText(promotion);
    CleansTo(s, suffix);
    ParsesAsMove(s + suffix);
    CutsPromotion(body, promotion);
  }

  /** Of several hints of a kind the last one counts. */
  lemma {:induction false} LastHintCounts(a: string, b: string)
    ensures FileHint(a + b) == if FileHint(b).Some? then FileHint(b) else FileHint(a)
    ensures RankHint(a + b) == if RankHint(b).Some? then RankHint(b) else RankHint(a)
  {
    if b == "" {
      assert a + b == a;
    } else {
      LastHintCounts(a, b[..|b| - 1]);
      assert (a + b)[..|a + b| - 1] == a + b[..|b| - 1];
    }
  }

  /** What the disambiguation letters are read as. */
  lemma HintsAreRead(f: Cell)
    ensures FileHint("") == None && RankHint("") == None
    ensures FileHint(FileName(f)) == Some(f.col) && RankHint(FileName(f)) == None
    ensures FileHint(RankName(f)) == None && RankHint(RankName(f)) == Some(f.row)
    ensures FileHint(FileName(f) + RankName(f)) == Some(f.col) && RankHint(FileName(f) + RankName(f)) == Some(f.row)
  {
    var both := FileName(f) + RankName(f);
    assert both[..1] == FileName(f);
    assert FileName(f)[..0] == "" && RankName(f)[..0] == "";
  }

  lemma CoreIsRead(letter: string, from: string, t: Cell, promotion: Option<char>)
    requires letter == "" || (|letter| == 1 && letter[0] in "KQRBN")
    requires from != "" ==> from[0] !in "KQRBN"
    ensures ParseCore(letter + from + Algebraic(t), promotion) ==
      Move(if letter == "" then 'P' else letter[0], FileHint(from), RankHint(from), t, promotion)
  {
    NamedSquares(t);
    var core := letter + from + Algebraic(t);
    assert core[|core| - 2..] == Algebraic(t);
    var prefix := core[..|core| - 2];
    assert prefix == letter + from;
    if letter != "" { assert prefix[1..] == from; } else { assert prefix == from; }
  }

  /** The request that the written text is read as. */
  ghost function Asked(st: State, f: Cell, t: Cell, promotion: Option<char>, d: nat): Request {
    var from := Disambiguation(st, f, t, d);
    Move(if IsPawn(At(st.l.board, f)) then 'P' else ToUpper(At(st.l.board, f)),
         FileHint(from), RankHint(from), t, promotion)
  }

  lemma OriginIsNames(st: State, f: Cell, t: Cell, d: nat)
    requires At(st.l.board, f) in "PNBRQKpnbrqk"
    ensures var letter, from := Letter(At(st.l.board, f)), Disambiguation(st, f, t, d);
      && (forall c :: c in letter + from ==> IsName(c))
      && (letter == "" || (|letter| == 1 && letter[0] in "KQRBN"))
      && (from != "" ==> from[0] !in "KQRBN")
  {
    assert forall c :: c in FileName(f) + RankName(f) ==> IsName(c) && c !in "KQRBN";
  }

  lemma WrittenIsRead(st: State, f: Cell, t: Cell, promotion: Option<char>, suffix: string, d: nat)
    requires At(st.l.board, f) in "PNBRQKpnbrqk"
    requires promotion.Some? ==> promotion.value in "QRBN"
    requires forall c :: c in suffix ==> c in "+#!?"
    ensures Parse(Written(st, f, t, promotion, suffix, d)) == Asked(st, f, t, promotion, d)
  {
    OriginIsNames(st, f, t, d);
    var letter, from := Letter(At(st.l.board, f)), Disambiguation(st, f, t, d);
    var capture := if At(st.l.board, t) != '.' || EnPassantCapture(st.l.board, f, t) then "x" else "";
    var body := letter + from + capture + Algebraic(t);
    assert letter + from + "" == letter + from;
    BodyParses(letter + from, body, t, promotion, suffix);
    CoreIsRead(letter, from, t, promotion);
    assert Written(st, f, t, promotion, suffix, d) == body + PromotionText(promotion) + suffix;
  }

  /** The wanted character of the request is the moving piece's own. */
  lemma WantsThePiece(st: State, f: Cell)
    requires Holds(st.l.board, f, st.whiteToMove) && At(st.l.board, f) in "PNBRQKpnbrqk"
    ensures Wanted(st.whiteToMove, if IsPawn(At(st.l.board, f)) then 'P' else ToUpper(At(st.l.board, f)))
      == At(st.l.board, f)
  {
  }

  /** Two pawns of a side reach one square only by captures from two files. */
  lemma PawnsDoNotMeet(l: Layout, white: bool, f: Cell, s: Cell, t: Cell)
    requires PassedPawn(l, white) && At(l.board, f) == At(l.board, s) == (if white then 'P' else 'p')
    requires PawnReach(l, white, f, t) && PawnReach(l, white, s, t) && s != f
    ensures f.col != t.col && s.col != f.col
  {
    var dir := Forward(white);
    var behind: Cell := Square(t.row - dir, t.col);
    assert f == Square(t.row - 2 * dir, t.col) ==> Between(f, behind, t);
    assert s == Square(t.row - 2 * dir, t.col) ==> Between(s, behind, t);
  }

  lemma RivalsReach(st: State, f: Cell, t: Cell, d: nat, s: Cell)
    requires LegalTo(st.l, st.whiteToMove, s, t, d) == Yes && IsPawn(At(st.l.board, s))
    ensures s != t && At(st.l.board, s) == (if st.whiteToMove then 'P' else 'p')
    ensures PawnReach(st.l, st.whiteToMove, s, t)
  {
  }

  lemma NoPawnRival(st: State, f: Cell, t: Cell, d: nat, s: Cell)
    requires PassedPawn(st.l, st.whiteToMove) && IsPawn(At(st.l.board, f))
    requires LegalTo(st.l, st.whiteToMove, f, t, d) == Yes && Rival(st, f, t, d, s)
    ensures f.col != t.col && s.col != f.col
  {
    RivalsReach(st, f, t, d, s);
    RivalsReach(st, f, t, d, f);
    PawnsDoNotMeet(st.l, st.whiteToMove, f, s, t);
  }

  /** The letters exclude every rival. */
  lemma LettersExclude(st: State, f: Cell, t: Cell, d: nat, s: Cell)
    requires PassedPawn(st.l, st.whiteToMove)
    requires LegalTo(st.l, st.whiteToMove, f, t, d) == Yes && Rival(st, f, t, d, s)
    ensures var from := Disambiguation(st, f, t, d);
      || (FileHint(from) == Some(f.col) && s.col != f.col)
      || (RankHint(from) == Some(f.row) && s.row != f.row)
  {
    HintsAreRead(f);
    if IsPawn(At(st.l.board, f)) { NoPawnRival(st, f, t, d, s); }
  }

  /** Disambiguated as the standard says, no other piece fits the request. */
  lemma WrittenFitsAlone(st: State, f: Cell, t: Cell, promotion: Option<char>, d: nat)
    requires PassedPawn(st.l, st.whiteToMove) && At(st.l.board, f) in "PNBRQKpnbrqk"
    requires LegalTo(st.l, st.whiteToMove, f, t, d) == Yes
    ensures FitsAlone(st, Asked(st, f, t, promotion, d), d, f)
  {
    var r := Asked(st, f, t, promotion, d);
    LegalIsHeld(st, f, t, d);
    WantsThePiece(st, f);
    LettersAllow(st, f, t, d);
    assert Fits(st, r, d, f);
    forall s: Cell | Fits(st, r, d, s)
      ensures s == f
    {
      if s != f {
        assert Rival(st, f, t, d, s);
        LettersExclude(st, f, t, d, s);
      }
    }
  }

  lemma LettersAllow(st: State, f: Cell, t: Cell, d: nat)
    ensures var from := Disambiguation(st, f, t, d);
      && (FileHint(from).Some? ==> FileHint(from).value == f.col)
      && (RankHint(from).Some? ==> RankHint(from).value == f.row)
  {
    HintsAreRead(f);
  }

  lemma LegalIsHeld(st: State, f: Cell, t: Cell, d: nat)
    requires LegalTo(st.l, st.whiteToMove, f, t, d) == Yes
    ensures Holds(st.l.board, f, st.whiteToMove) && f != t
  {
  }

  /** Round trip: SAN written for a legal move resolves back to that move. */
  lemma WrittenResolves(st: State, f: Cell, t: Cell, promotion: Option<char>, suffix: string, d: nat)
    requires PassedPawn(st.l, st.whiteToMove) && At(st.l.board, f) in "PNBRQKpnbrqk"
    requires LegalTo(st.l, st.whiteToMove, f, t, d) == Yes
    requires promotion.Some? ==> promotion.value in "QRBN"
    requires forall c :: c in suffix ==> c in "+#!?"
    ensures Resolved(st, Written(st, f, t, promotion, suffix, d), d) == Some((f, t, promotion))
  {
    WrittenIsRead(st, f, t, promotion, suffix, d);
    WrittenFitsAlone(st, f, t, promotion, d);
    ResolvesExactly(st, Written(st, f, t, promotion, suffix, d), d, f);
  }

  // -------------------------------------------------------------------- castling

  predicate CastlingText(text: string, kingside: bool) {
    if kingside then text == "O-O" || text == "0-0" else text == "O-O-O" || text == "0-0-0"
  }

  /** A castling text, marked or not, resolves to the king's two files whenever the king is at home, legal or not. */
  lemma CastlingResolves(st: State, text: string, kingside: bool, suffix: string, d: nat)
    requires CastlingText(text, kingside) && forall c :: c in suffix ==> c in "+#!?"
    ensures Parse(text + suffix) == Castle(kingside)
    ensures var home := HomeOf(st.whiteToMove);
      Resolved(st, text + suffix, d) ==
      if At(st.l.board, home) == KingOf(st.whiteToMove) then Some((home, Square(home.row, if kingside then 6 else 2), None))
      else None
  {
    CleansTo(text, suffix);
  }

  /**
    A move that a text resolves to is legal, unless the text is a castling text: then it is
    legal exactly when the castling test and the check test on the trial board pass.
   */
  lemma ResolvedIsLegal(st: State, san: string, d: nat)
    requires Resolved(st, san, d).Some?
    ensures var (f, t, promotion) := Resolved(st, san, d).value;
      && (!Parse(san).Castle? ==> LegalTo(st.l, st.whiteToMove, f, t, d) == Yes)
      && (Parse(san).Castle? ==>
            && f == HomeOf(st.whiteToMove) && At(st.l.board, f) == KingOf(st.whiteToMove) && TwoFiles(f, t))
  {
  }

  lemma ResolvedCastleIsLegal(st: State, san: string, d: nat)
    requires Sound(st.l, st.whiteToMove) && Parse(san).Castle? && Resolved(st, san, d).Some? && d >= 2
    ensures var (f, t, promotion) := Resolved(st, san, d).value;
      && TwoFiles(f, t)
      && (LegalTo(st.l, st.whiteToMove, f, t, d) == Yes <==>
            && !Hangs(st.l, st.whiteToMove, f, t)
            && MayCastle(st.l, st.whiteToMove, f, t) && !Checked(TryMove(st.l, f, t), st.whiteToMove))
  {
    ResolvedIsLegal(st, san, d);
    var (f, t, promotion) := Resolved(st, san, d).value;
    LegalExact(st.l, st.whiteToMove, f, t, d);
    if MayCastle(st.l, st.whiteToMove, f, t) { assert Between(f, t, Corner(f, t)); }
  }

  /** The castling move that is legal is the one its text resolves to. */
  lemma LegalCastleResolves(st: State, f: Cell, t: Cell, text: string, suffix: string, d: nat)
    requires SoleKings(st.l.board) && HomeKings(st.l) && LegalTo(st.l, st.whiteToMove, f, t, d) == Yes
    requires CastlingMove(At(st.l.board, f), f, t) && CastlingText(text, t.col > f.col)
    requires forall c :: c in suffix ==> c in "+#!?"
    ensures Resolved(st, text + suffix, d) == Some((f, t, None))
  {
    LegalMeans(st.l, st.whiteToMove, f, t, d);
    CastlesFromHome(st.l, st.whiteToMove, f, t);
    CastlingResolves(st, text, t.col > f.col, suffix, d);
  }
}
