/** Move lists in UCI notation, and rebuilding a game from one. */
module Replay {
  import opened Squares
  import opened Rules
  import opened GameState
  import opened Text
  import opened Fen

  function Uci(f: Cell, t: Cell, promo: Option<char>): string {
    Algebraic(f) + Algebraic(t) + if promo.Some? then [ToLower(promo.value)] else ""
  }

  function FileIndex(c: char): Option<int> {
    if 'a' <= ToLower(c) <= 'h' then Some(ToLower(c) as int - 'a' as int) else None
  }

  /** SANResolver.square: the file letter may be of either case. */
  function NamedSquare(s: string): Option<Cell> {
    if |s| == 2 && FileIndex(s[0]).Some? && '1' <= s[1] <= '8' then
      Some(Square(8 - ValueOf(s[1]), FileIndex(s[0]).value))
    else None
  }

  lemma NamedSquares(s: Cell)
    ensures NamedSquare(Algebraic(s)) == Some(s)
  {
  }

  /** A text names a square exactly if it is the square's name, its file letter of either case. */
  lemma NamesExactly(text: string, s: Cell)
    ensures NamedSquare(text) == Some(s) <==>
      |text| == 2 && text[0] in [Algebraic(s)[0], ToUpper(Algebraic(s)[0])] && text[1] == Algebraic(s)[1]
  {
  }

  /** applyUCI: malformed and refused moves are skipped; a promotion without a letter makes a queen. */
  ghost function ApplyUciTo(st: State, uci: string, d: nat): Option<State> {
    if |uci| < 4 || NamedSquare(uci[..2]).None? || NamedSquare(uci[2..4]).None? then Some(st)
    else
      var f, t := NamedSquare(uci[..2]).value, NamedSquare(uci[2..4]).value;
      match MoveTo(st, f, t, d)
      case None => None
      case Some((st', Promotion)) => PromoteTo(st', t, if |uci| > 4 then ToUpper(uci[4]) else 'Q', d)
      case Some((st', _)) => Some(st')
  }

  /** The game rebuilt from a move list, as when a saved game is resumed. */
  ghost function ReplayOf(moves: seq<string>, d: nat): Option<State> {
    if moves == [] then Some(START_STATE)
    else
      match ReplayOf(moves[..|moves| - 1], d)
      case None => None
      case Some(st) => ApplyUciTo(st, moves[|moves| - 1], d)
  }

  lemma ReplayMore(moves: seq<string>, uci: string, d: nat)
    requires ReplayOf(moves, d).Some?
    ensures ReplayOf(moves + [uci], d) == ApplyUciTo(ReplayOf(moves, d).value, uci, d)
  {
    assert (moves + [uci])[..|moves|] == moves;
  }

  lemma {:induction false} ReplayPrefix(moves: seq<string>, i: nat, d: nat)
    requires ReplayOf(moves, d).Some? && i <= |moves|
    ensures ReplayOf(moves[..i], d).Some?
    decreases |moves|
  {
    if i == |moves| {
      assert moves[..i] == moves;
    } else {
      ReplayPrefix(moves[..|moves| - 1], i, d);
      assert moves[..|moves| - 1][..i] == moves[..i];
    }
  }

  lemma UciParts(f: Cell, t: Cell, promo: Option<char>)
    ensures var uci := Uci(f, t, promo);
      && |uci| == 4 + (if promo.Some? then 1 else 0)
      && NamedSquare(uci[..2]) == Some(f) && NamedSquare(uci[2..4]) == Some(t)
      && (promo.Some? ==> uci[4] == ToLower(promo.value))
  {
    NamedSquares(f);
    NamedSquares(t);
    var uci := Uci(f, t, promo);
    assert uci[..2] == Algebraic(f) && uci[2..4] == Algebraic(t);
  }

  /** Equal but for a recorded result that one side has consumed already. */
  predicate Same(st: State, st': State) {
    st == st'.(pending := st.pending)
  }

  lemma SameCheckOver(st: State, st0: State, d: nat)
    requires Same(st, st0)
    ensures CheckOver(st, d).Some? <==> CheckOver(st0, d).Some?
    ensures CheckOver(st, d).Some? ==> Same(CheckOver(st, d).value, CheckOver(st0, d).value)
  {
  }

  lemma SameMove(st: State, st0: State, f: Cell, t: Cell, d: nat)
    requires Same(st, st0)
    ensures MoveTo(st, f, t, d).Some? <==> MoveTo(st0, f, t, d).Some?
    ensures MoveTo(st, f, t, d).Some? ==>
      && MoveTo(st, f, t, d).value.1 == MoveTo(st0, f, t, d).value.1
      && Same(MoveTo(st, f, t, d).value.0, MoveTo(st0, f, t, d).value.0)
  {
    var e, e0 := Execute(st, f, t), Execute(st0, f, t);
    assert Same(e, e0);
    SameCheckOver(e.(whiteToMove := !e.whiteToMove), e0.(whiteToMove := !e0.whiteToMove), d);
  }

  lemma SamePromote(st: State, st0: State, at: Cell, kind: char, kind0: char, d: nat)
    requires Same(st, st0) && ToUpper(kind0) == ToUpper(kind) && ToLower(kind0) == ToLower(kind)
    ensures PromoteTo(st, at, kind, d).Some? <==> PromoteTo(st0, at, kind0, d).Some?
    ensures PromoteTo(st, at, kind, d).Some? ==> Same(PromoteTo(st, at, kind, d).value, PromoteTo(st0, at, kind0, d).value)
  {
    var c, c0 := Crown(st, at, kind), Crown(st0, at, kind0);
    assert Same(c, c0);
    SameCheckOver(c.(whiteToMove := !c.whiteToMove), c0.(whiteToMove := !c0.whiteToMove), d);
  }

  /** The game st is what the move list replays to. */
  ghost predicate Rebuilds(moves: seq<string>, st: State, d: nat) {
    ReplayOf(moves, d).Some? && Same(st, ReplayOf(moves, d).value)
  }

  ghost predicate PawnArrives(st0: State, st: State, f: Cell, at: Cell, d: nat) {
    MoveTo(st0, f, at, d).Some? && MoveTo(st0, f, at, d).value.1 == Promotion
    && Same(st, MoveTo(st0, f, at, d).value.0)
  }

  /** The last move of the list put a pawn on the last rank, and its promotion is still open. */
  ghost predicate RebuildsPawn(moves: seq<string>, st: State, at: Cell, d: nat) {
    moves != [] && ReplayOf(moves[..|moves| - 1], d).Some?
    && exists f: Cell ::
      moves[|moves| - 1] == Uci(f, at, None)
      && PawnArrives(ReplayOf(moves[..|moves| - 1], d).value, st, f, at, d)
  }

  /** A human move that completes at once, appended, is rebuilt too. */
  lemma MoveRebuilds(moves: seq<string>, st: State, f: Cell, t: Cell, promo: Option<char>, d: nat)
    requires Rebuilds(moves, st, d) && MoveTo(st, f, t, d).Some? && MoveTo(st, f, t, d).value.1 == Success
    ensures Rebuilds(moves + [Uci(f, t, promo)], MoveTo(st, f, t, d).value.0, d)
  {
    var st0 := ReplayOf(moves, d).value;
    SameMove(st, st0, f, t, d);
    UciParts(f, t, promo);
    ReplayMore(moves, Uci(f, t, promo), d);
  }

  lemma PawnMoveRebuilds(moves: seq<string>, st: State, f: Cell, t: Cell, d: nat)
    requires Rebuilds(moves, st, d) && MoveTo(st, f, t, d).Some? && MoveTo(st, f, t, d).value.1 == Promotion
    ensures RebuildsPawn(moves + [Uci(f, t, None)], MoveTo(st, f, t, d).value.0, t, d)
  {
    var st0, moves' := ReplayOf(moves, d).value, moves + [Uci(f, t, None)];
    SameMove(st, st0, f, t, d);
    assert moves'[..|moves'| - 1] == moves;
    assert moves'[|moves'| - 1] == Uci(f, t, None);
    assert PawnArrives(st0, MoveTo(st, f, t, d).value.0, f, t, d);
  }

  lemma KindCases(kind: char)
    ensures ToUpper(ToUpper(ToLower(kind))) == ToUpper(kind) && ToLower(ToUpper(ToLower(kind))) == ToLower(kind)
  {
  }

  lemma PromotionReplays(st0: State, st: State, f: Cell, at: Cell, kind: char, d: nat)
    requires PawnArrives(st0, st, f, at, d) && PromoteTo(st, at, kind, d).Some?
    ensures ApplyUciTo(st0, Uci(f, at, Some(kind)), d).Some?
    ensures Same(PromoteTo(st, at, kind, d).value, ApplyUciTo(st0, Uci(f, at, Some(kind)), d).value)
  {
    UciParts(f, at, Some(kind));
    KindCases(kind);
    var st1, letter := MoveTo(st0, f, at, d).value.0, ToUpper(ToLower(kind));
    assert ApplyUciTo(st0, Uci(f, at, Some(kind)), d) == PromoteTo(st1, at, letter, d);
    SamePromote(st, st1, at, kind, letter, d);
  }

  /** Completing the promotion, the letter appended to the move, is rebuilt. */
  lemma PromotionRebuilds(moves: seq<string>, st: State, at: Cell, kind: char, d: nat)
    requires RebuildsPawn(moves, st, at, d) && PromoteTo(st, at, kind, d).Some?
    ensures var n := |moves| - 1;
      Rebuilds(moves[..n] + [moves[n] + [ToLower(kind)]], PromoteTo(st, at, kind, d).value, d)
  {
    var n := |moves| - 1;
    var st0 := ReplayOf(moves[..n], d).value;
    var f: Cell :| moves[n] == Uci(f, at, None) && PawnArrives(st0, st, f, at, d);
    var uci := Uci(f, at, Some(kind));
    assert moves[n] + [ToLower(kind)] == uci;
    PromotionReplays(st0, st, f, at, kind, d);
    ReplayMore(moves[..n], uci, d);
  }

  /** The list's letter for an engine's pawn on the last rank is the pawn's own, so a replay leaves it a pawn. */
  predicate NamesPawn(promo: Option<char>) { promo == Some('p') || promo == Some('P') }

  /** Crowning a pawn as a pawn changes nothing. */
  lemma PawnStaysPawn(st: State, at: Cell, kind: char)
    requires IsPawn(At(st.l.board, at)) && kind == 'P'
    ensures Crown(st, at, kind) == st
  {
    SameCells(Put(st.l.board, at, At(st.l.board, at)), st.l.board);
  }

  /** A replayed pawn on the last rank is crowned with the letter of its entry, or as a queen. */
  lemma UciPromotes(st: State, f: Cell, t: Cell, promo: Option<char>, d: nat)
    requires MoveTo(st, f, t, d) == Some((Execute(st, f, t), Promotion))
    ensures ApplyUciTo(st, Uci(f, t, promo), d) ==
      PromoteTo(Execute(st, f, t), t, if promo.Some? then ToUpper(ToLower(promo.value)) else 'Q', d)
  {
    UciParts(f, t, promo);
  }

  /** A replayed pawn that its letter leaves a pawn is moved as by the engine. */
  lemma NamedPawnReplays(st: State, f: Cell, t: Cell, promo: Option<char>, d: nat)
    requires !st.gameOver && IsPawn(At(st.l.board, f)) && LastRank(t) && NamesPawn(promo)
    requires LegalTo(st.l, st.whiteToMove, f, t, d) == Yes
    ensures ApplyUciTo(st, Uci(f, t, promo), d) == PassTurn(Execute(st, f, t), d)
  {
    var st1 := Execute(st, f, t);
    assert MoveTo(st, f, t, d) == Some((st1, Promotion));
    UciPromotes(st, f, t, promo, d);
    PawnStaysPawn(st1, t, 'P');
  }

  lemma NamedPawnRebuilds(moves: seq<string>, st: State, f: Cell, t: Cell, promo: Option<char>, d: nat)
    requires Rebuilds(moves, st, d) && !st.gameOver && IsPawn(At(st.l.board, f)) && LastRank(t) && NamesPawn(promo)
    requires EngineTo(st, f, t, d).Some? && EngineTo(st, f, t, d).value.1.Some?
    ensures Rebuilds(moves + [Uci(f, t, promo)], EngineTo(st, f, t, d).value.0, d)
  {
    var st0 := ReplayOf(moves, d).value;
    ReplayMore(moves, Uci(f, t, promo), d);
    NamedPawnReplays(st0, f, t, promo, d);
    var e, e0 := Execute(st, f, t), Execute(st0, f, t);
    assert EngineTo(st, f, t, d).value.0 == PassTurn(e, d).value;
    assert Same(e, e0);
    SameCheckOver(e.(whiteToMove := !e.whiteToMove), e0.(whiteToMove := !e0.whiteToMove), d);
  }

  /** An engine move that leaves no pawn on the last rank, or names it so, is rebuilt as a human's would be. */
  lemma EngineMoveRebuilds(moves: seq<string>, st: State, f: Cell, t: Cell, promo: Option<char>, d: nat)
    requires Rebuilds(moves, st, d) && !st.gameOver
    requires IsPawn(At(st.l.board, f)) && LastRank(t) ==> NamesPawn(promo)
    requires EngineTo(st, f, t, d).Some? && EngineTo(st, f, t, d).value.1.Some?
    ensures Rebuilds(moves + [Uci(f, t, promo)], EngineTo(st, f, t, d).value.0, d)
  {
    if IsPawn(At(st.l.board, f)) && LastRank(t) {
      NamedPawnRebuilds(moves, st, f, t, promo, d);
    } else {
      assert MoveTo(st, f, t, d) == Some((EngineTo(st, f, t, d).value.0, Success));
      MoveRebuilds(moves, st, f, t, promo, d);
    }
  }
}
