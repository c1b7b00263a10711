/** When a saved move list stops rebuilding the game, and why it never rebuilds it again. */
module Divergence {
  import opened Squares
  import opened Rules
  import opened Settling
  import opened GameState
  import opened Positions
  import opened Runs
  import opened Games
  import opened Replay
  import opened Bridge
  import opened Sessions
  import opened SessionGames
  import opened TurnTaking

  /** A pawn on its last rank, which the engine left there and which can never move again. */
  predicate DeadPawn(b: Board, c: Cell) {
    (At(b, c) == 'P' && c.row == 0) || (At(b, c) == 'p' && c.row == 7)
  }

  ghost predicate DeadPawnDiffers(b: Board, b': Board) {
    exists c: Cell :: DeadPawn(b, c) && At(b', c) != At(b, c)
  }

  /** The replayed state has other records than the game, or something else where the game has a dead pawn. */
  ghost predicate Diverged(st: State, re: State) {
    |re.history| <= |st.history| && (re.history != st.history || DeadPawnDiffers(st.l.board, re.l.board))
  }

  lemma DivergedIsNotSame(st: State, re: State)
    requires Diverged(st, re)
    ensures !Same(st, re)
  {
  }

  // --------------------------------------------------------------- one more move

  /** What replaying one entry does: nothing, or the move, with whatever is crowned on its square. */
  ghost predicate Replays(re: State, re': State, f: Cell, t: Cell) {
    || re' == re
    || (&& re'.history == re.history + [Record(f, t, At(re.l.board, f), At(re.l.board, t), re.l.ep, re.l.moved)]
        && forall c: Cell :: c != t ==> At(re'.l.board, c) == At(ExecutedBoard(re.l.board, f, t), c))
  }

  lemma PassTurnKeeps(st: State, d: nat)
    requires PassTurn(st, d).Some?
    ensures PassTurn(st, d).value.history == st.history && PassTurn(st, d).value.l == st.l
  {
  }

  lemma MoveReplays(st: State, f: Cell, t: Cell, d: nat)
    requires MoveTo(st, f, t, d).Some?
    ensures Replays(st, MoveTo(st, f, t, d).value.0, f, t)
  {
    if LegalTo(st.l, st.whiteToMove, f, t, d) == Yes && !(IsPawn(At(st.l.board, f)) && LastRank(t)) && !st.gameOver {
      PassTurnKeeps(Execute(st, f, t), d);
    }
  }

  lemma PromotionReplaysToo(st: State, f: Cell, t: Cell, kind: char, d: nat)
    requires MoveTo(st, f, t, d).Some? && MoveTo(st, f, t, d).value.1 == Promotion
    requires PromoteTo(MoveTo(st, f, t, d).value.0, t, kind, d).Some?
    ensures var st' := PromoteTo(MoveTo(st, f, t, d).value.0, t, kind, d).value;
      Replays(st, st', f, t) && At(st'.l.board, t) == Crowned(IsWhite(At(st.l.board, f)), kind)
  {
    var st1 := Execute(st, f, t);
    assert MoveTo(st, f, t, d).value.0 == st1;
    LegalMovesAway(st.l, st.whiteToMove, f, t, d);
    PassTurnKeeps(Crown(st1, t, kind), d);
  }

  lemma UciReplays(re: State, f: Cell, t: Cell, promo: Option<char>, d: nat)
    requires ApplyUciTo(re, Uci(f, t, promo), d).Some?
    ensures Replays(re, ApplyUciTo(re, Uci(f, t, promo), d).value, f, t)
  {
    UciParts(f, t, promo);
    var uci := Uci(f, t, promo);
    MoveReplays(re, f, t, d);
    if MoveTo(re, f, t, d).value.1 == Promotion {
      PromotionReplaysToo(re, f, t, if |uci| > 4 then ToUpper(uci[4]) else 'Q', d);
    }
  }

  lemma DeadPawnStays(l: Layout, white: bool, f: Cell, t: Cell, c: Cell)
    requires Sound(l, white) && MayMove(l, white, f, t) && DeadPawn(l.board, c)
    ensures c != f
    ensures CastlingMove(At(l.board, f), f, t) ==> c != RookSquare(f, t)
    ensures EnPassantCapture(l.board, f, t) ==> c != Passed(f, t)
  {
    if CastlingMove(At(l.board, f), f, t) { CastlesFromHome(l, white, f, t); }
    if EnPassantCapture(l.board, f, t) { TakesEnPassant(l, white, f, t); }
  }

  /** Where a dead pawn is after a move: castling may carry it along its rank. */
  function Carried(b: Board, f: Cell, t: Cell, c: Cell): Cell {
    if CastlingMove(At(b, f), f, t) && c == Corner(f, t) then RookSquare(f, t) else c
  }

  lemma CarriedCells(b: Board, f: Cell, t: Cell, c: Cell)
    requires c != f && c != t
    requires CastlingMove(At(b, f), f, t) ==> f.row == t.row && f.col == 4 && t.col in {2, 6} && c != RookSquare(f, t)
    requires EnPassantCapture(b, f, t) ==> c != Passed(f, t)
    ensures Carried(b, f, t, c) !in {f, t} && Carried(b, f, t, c).row == c.row
    ensures At(ExecutedBoard(b, f, t), Carried(b, f, t, c)) == At(b, c)
  {
  }

  /** The pawn is taken, which the records tell apart; or it still stands, and the replay has something else there. */
  lemma DeadPawnStillDiffers(l: Layout, re: Layout, white: bool, f: Cell, t: Cell, b': Board, c: Cell)
    requires Sound(l, white) && MayMove(l, white, f, t) && DeadPawn(l.board, c) && At(re.board, c) != At(l.board, c)
    requires At(re.board, f) == At(l.board, f) && At(re.board, t) == At(l.board, t)
    requires forall c: Cell :: c != t ==> At(b', c) == At(ExecutedBoard(l.board, f, t), c)
    ensures c != t
    ensures DeadPawn(b', Carried(l.board, f, t, c))
    ensures At(ExecutedBoard(re.board, f, t), Carried(l.board, f, t, c)) != At(b', Carried(l.board, f, t, c))
    ensures Carried(l.board, f, t, c) != t
  {
    DeadPawnStays(l, white, f, t, c);
    if CastlingMove(At(l.board, f), f, t) { CastlesFromHome(l, white, f, t); }
    CarriedCells(l.board, f, t, c);
    CarriedCells(re.board, f, t, c);
    assert Carried(re.board, f, t, c) == Carried(l.board, f, t, c);
  }

  lemma RecordsStillDiffer(h: seq<Record>, h': seq<Record>, r: Record, r': Record)
    requires |h'| <= |h| && h' != h
    ensures h + [r] != h' + [r'] && h + [r] != h'
  {
    assert (h + [r])[..|h|] == h && (h' + [r'])[..|h'|] == h';
  }

  /** A game that has diverged from its replay stays so, whatever is played. */
  lemma StillDiverged(st: State, st': State, re: State, re': State, f: Cell, t: Cell)
    requires Sound(st.l, st.whiteToMove) && MayMove(st.l, st.whiteToMove, f, t)
    requires Replays(st, st', f, t) && st' != st && Replays(re, re', f, t) && Diverged(st, re)
    ensures Diverged(st', re')
  {
    var r := Record(f, t, At(st.l.board, f), At(st.l.board, t), st.l.ep, st.l.moved);
    var r' := Record(f, t, At(re.l.board, f), At(re.l.board, t), re.l.ep, re.l.moved);
    if re' != re {
      if re.history != st.history {
        RecordsStillDiffer(st.history, re.history, r, r');
      } else if r == r' {
        var c: Cell :| DeadPawn(st.l.board, c) && At(re.l.board, c) != At(st.l.board, c);
        DeadPawnStillDiffers(st.l, re.l, st.whiteToMove, f, t, st'.l.board, c);
        assert DeadPawn(st'.l.board, Carried(st.l.board, f, t, c));
      } else {
        assert st'.history[|st.history|] != re'.history[|st.history|];
      }
    }
  }

  // ------------------------------------------------------------- where it begins

  /** The engine leaves a pawn on the last rank, which the replay crowns. */
  lemma DivergesHere(st: State, re: State, f: Cell, t: Cell, promo: Option<char>, d: nat)
    requires Sound(st.l, st.whiteToMove) && Same(st, re) && !st.gameOver
    requires IsPawn(At(st.l.board, f)) && LastRank(t) && !NamesPawn(promo)
    requires EngineTo(st, f, t, d).Some? && EngineTo(st, f, t, d).value.1.Some?
    requires ApplyUciTo(re, Uci(f, t, promo), d).Some?
    ensures Diverged(EngineTo(st, f, t, d).value.0, ApplyUciTo(re, Uci(f, t, promo), d).value)
  {
    var st', re' := EngineTo(st, f, t, d).value.0, ApplyUciTo(re, Uci(f, t, promo), d).value;
    var uci := Uci(f, t, promo);
    UciParts(f, t, promo);
    UciReplays(re, f, t, promo, d);
    SameMove(st, re, f, t, d);
    LegalMeans(st.l, st.whiteToMove, f, t, d);
    PassTurnKeeps(Execute(st, f, t), d);
    assert MoveTo(st, f, t, d) == Some((Execute(st, f, t), Promotion));
    var kind := if |uci| > 4 then ToUpper(uci[4]) else 'Q';
    PromotionReplaysToo(re, f, t, kind, d);
    assert At(st'.l.board, t) == At(st.l.board, f);
    CrownsOther(IsWhite(At(st.l.board, f)), promo);
    assert DeadPawn(st'.l.board, t);
  }

  lemma CrownsOther(white: bool, promo: Option<char>)
    requires !NamesPawn(promo)
    ensures !IsPawn(Crowned(white, if promo.Some? then ToUpper(ToLower(promo.value)) else 'Q'))
  {
  }

  // ------------------------------------------------------------------ in a session

  /** The records that a resumed session started with. */
  function Replayed(s: Session): int { |s.game.history| - |s.movers| - One(s.promoting.Some?) }

  /** One record a mover after those, but for an open promotion, and one entry a record besides the skipped ones. */
  predicate MoversCount(s: Session) {
    Replayed(s) >= 0 && |s.moves| == |s.game.history| + s.skipped
  }

  /** Move i played in the session: a pawn that the engine left on its last rank, and did not name so. */
  predicate LeftPawn(s: Session, i: nat)
    requires MoversCount(s) && i < |s.movers|
  {
    var r, entry := s.game.history[Replayed(s) + i], s.moves[Replayed(s) + s.skipped + i];
    s.movers[i] == ByEngine && IsPawn(r.piece) && LastRank(r.to) && (|entry| > 4 ==> !NamesPawn(Some(entry[4])))
  }

  predicate EnginePawnArrived(s: Session) {
    MoversCount(s) && exists i: nat :: i < |s.movers| && LeftPawn(s, i)
  }

  /** The list, its last entry apart, replays to something else than the game whose promotion is open. */
  ghost predicate OpenDiverged(s: Session, d: nat)
    requires s.promoting.Some?
  {
    s.moves != [] && exists st0: State, f: Cell :: OpensFrom(s, st0, f, d)
  }

  ghost predicate OpensFrom(s: Session, st0: State, f: Cell, d: nat)
    requires s.promoting.Some? && s.moves != []
  {
    var n := |s.moves| - 1;
    && Reached(st0) && MoveTo(st0, f, s.promoting.value, d) == Some((s.game, Promotion))
    && s.moves[n] == Uci(f, s.promoting.value, None)
    && (ReplayOf(s.moves[..n], d).Some? ==> Diverged(st0, ReplayOf(s.moves[..n], d).value))
  }

  /** Once drifted, a session's list, as far as its replay settles, does not rebuild its game. */
  ghost predicate DriftTells(s: Session, d: nat) {
    s.drifted ==>
      if s.promoting.None? then ReplayOf(s.moves, d).Some? ==> Diverged(s.game, ReplayOf(s.moves, d).value)
      else OpenDiverged(s, d)
  }

  ghost predicate Tracked(s: Session, d: nat) {
    MoversCount(s) && (s.drifted <==> EnginePawnArrived(s)) && DriftTells(s, d)
  }

  // ------------------------------------------------------------ arrived pawns, counted

  /** The later session has the records and entries of the earlier one's completed moves. */
  predicate GrowsFrom(s: Session, s': Session)
    requires MoversCount(s) && MoversCount(s')
  {
    && Replayed(s') == Replayed(s) && s'.skipped == s.skipped
    && s.movers <= s'.movers && |s'.movers| <= |s.movers| + 1
    && s.game.history[..Replayed(s) + |s.movers|] == s'.game.history[..Replayed(s) + |s.movers|]
    && s.moves[..Replayed(s) + s.skipped + |s.movers|] == s'.moves[..Replayed(s) + s.skipped + |s.movers|]
  }

  lemma StillLeft(s: Session, s': Session, i: nat)
    requires MoversCount(s) && MoversCount(s') && GrowsFrom(s, s') && i < |s.movers|
    ensures LeftPawn(s', i) <==> LeftPawn(s, i)
  {
    var r, m := Replayed(s) + i, Replayed(s) + s.skipped + i;
    assert s.game.history[..Replayed(s) + |s.movers|][r] == s'.game.history[..Replayed(s) + |s.movers|][r];
    assert s.moves[..Replayed(s) + s.skipped + |s.movers|][m] == s'.moves[..Replayed(s) + s.skipped + |s.movers|][m];
  }

  /** Adding moves keeps what is known of the earlier ones. */
  lemma ArrivalsGrow(s: Session, s': Session)
    requires MoversCount(s) && MoversCount(s') && GrowsFrom(s, s')
    ensures EnginePawnArrived(s') <==>
      EnginePawnArrived(s) || (|s'.movers| > |s.movers| && LeftPawn(s', |s.movers|))
  {
    if i: nat :| i < |s.movers| && LeftPawn(s, i) { StillLeft(s, s', i); }
    if i: nat :| i < |s'.movers| && LeftPawn(s', i) {
      if i < |s.movers| { StillLeft(s, s', i); }
    }
  }

  // -------------------------------------------------------------------- the steps

  lemma ReplayedPrefix(moves: seq<string>, uci: string, d: nat)
    requires ReplayOf(moves + [uci], d).Some?
    ensures ReplayOf(moves, d).Some?
    ensures ApplyUciTo(ReplayOf(moves, d).value, uci, d) == ReplayOf(moves + [uci], d)
  {
    assert (moves + [uci])[..|moves|] == moves;
  }

  /** A move appended to a diverged list leaves it diverged. */
  lemma AppendStaysDiverged(moves: seq<string>, st: State, st': State, f: Cell, t: Cell, promo: Option<char>, d: nat)
    requires Reached(st) && LegalTo(st.l, st.whiteToMove, f, t, d) == Yes
    requires Replays(st, st', f, t) && st' != st
    requires ReplayOf(moves, d).Some? ==> Diverged(st, ReplayOf(moves, d).value)
    requires ReplayOf(moves + [Uci(f, t, promo)], d).Some?
    ensures Diverged(st', ReplayOf(moves + [Uci(f, t, promo)], d).value)
  {
    var uci := Uci(f, t, promo);
    ReplayedPrefix(moves, uci, d);
    UciReplays(ReplayOf(moves, d).value, f, t, promo, d);
    LegalMeans(st.l, st.whiteToMove, f, t, d);
    StillDiverged(st, st', ReplayOf(moves, d).value, ReplayOf(moves + [uci], d).value, f, t);
  }

  /** A completed human move, of either kind. */
  lemma HumanDoneTracked(s: Session, s': Session, d: nat)
    requires Tracked(s, d) && s.movers == s'.movers && s'.promoting.None? && s'.drifted == s.drifted
    requires s'.skipped == s.skipped
    requires |s'.moves| - s.skipped == |s'.game.history| == Replayed(s) + |s.movers| + 1
    requires s.game.history[..Replayed(s) + |s.movers|] == s'.game.history[..Replayed(s) + |s.movers|]
    requires s.moves[..Replayed(s) + s.skipped + |s.movers|] == s'.moves[..Replayed(s) + s.skipped + |s.movers|]
    requires s.drifted && ReplayOf(s'.moves, d).Some? ==> Diverged(s'.game, ReplayOf(s'.moves, d).value)
    ensures Tracked(HumanDone(s'), d)
  {
    HumanDoneShape(s');
    ArrivalsGrow(s, HumanDone(s'));
  }

  lemma HumanDoneShape(s: Session)
    requires s.promoting.None?
    ensures var s' := HumanDone(s);
      && s'.game == s.game.(pending := None) && s'.moves == s.moves && s'.promoting.None? && s'.drifted == s.drifted
      && s'.movers == s.movers + [ByHuman] && s'.skipped == s.skipped
  {
  }

  lemma MoveMakes(st: State, f: Cell, t: Cell, d: nat)
    requires MoveTo(st, f, t, d).Some? && MoveTo(st, f, t, d).value.1 != Failed
    ensures var st' := MoveTo(st, f, t, d).value.0;
      && LegalTo(st.l, st.whiteToMove, f, t, d) == Yes && Replays(st, st', f, t) && st' != st
      && |st'.history| == |st.history| + 1 && st'.history[..|st.history|] == st.history
  {
    MoveReplays(st, f, t, d);
    MoveAddsOne(st, f, t, d);
  }

  lemma TapOpens(s: Session, st: State, f: Cell, t: Cell, d: nat)
    requires Tracked(s, d) && s.promoting.None? && Reached(s.game)
    requires MoveTo(s.game, f, t, d) == Some((st, Promotion))
    ensures Tracked(s.(game := st, moves := s.moves + [Uci(f, t, None)], promoting := Some(t)), d)
  {
    var s' := s.(game := st, moves := s.moves + [Uci(f, t, None)], promoting := Some(t));
    MoveMakes(s.game, f, t, d);
    ArrivalsGrow(s, s');
    assert s'.moves[..|s'.moves| - 1] == s.moves;
    if s.drifted { assert OpensFrom(s', s.game, f, d); }
  }

  lemma TapCompletes(s: Session, st: State, f: Cell, t: Cell, d: nat)
    requires Tracked(s, d) && s.promoting.None? && Reached(s.game)
    requires MoveTo(s.game, f, t, d) == Some((st, Success))
    ensures Tracked(HumanDone(s.(game := st, moves := s.moves + [Uci(f, t, None)])), d)
  {
    var moves := s.moves + [Uci(f, t, None)];
    MoveMakes(s.game, f, t, d);
    if s.drifted && ReplayOf(moves, d).Some? { AppendStaysDiverged(s.moves, s.game, st, f, t, None, d); }
    HumanDoneTracked(s, s.(game := st, moves := moves), d);
  }

  lemma TapTracked(s: Session, f: Cell, t: Cell, d: nat)
    requires Grounded(s, d) && Tracked(s, d) && TapTo(s, f, t, d).Some?
    ensures Tracked(TapTo(s, f, t, d).value, d)
  {
    if HumansTurn(s) {
      match MoveTo(s.game, f, t, d).value
      case (_, Failed) =>
      case (st, Promotion) => TapOpens(s, st, f, t, d);
      case (st, Success) => TapCompletes(s, st, f, t, d);
    }
  }

  lemma ChoiceTracked(s: Session, kind: char, d: nat)
    requires Tracked(s, d) && ChooseTo(s, kind, d).Some?
    ensures Tracked(ChooseTo(s, kind, d).value, d)
  {
    if s.promoting.Some? {
      var st := PromoteTo(s.game, s.promoting.value, kind, d).value;
      PassTurnKeeps(Crown(s.game, s.promoting.value, kind), d);
      if s.drifted && ReplayOf(WithKind(s.moves, kind), d).Some? { ChoiceStaysDiverged(s, kind, d); }
      HumanDoneTracked(s, s.(game := st, moves := WithKind(s.moves, kind), promoting := None), d);
    }
  }

  lemma ChoiceStaysDiverged(s: Session, kind: char, d: nat)
    requires s.promoting.Some? && OpenDiverged(s, d) && PromoteTo(s.game, s.promoting.value, kind, d).Some?
    requires ReplayOf(WithKind(s.moves, kind), d).Some?
    ensures Diverged(PromoteTo(s.game, s.promoting.value, kind, d).value, ReplayOf(WithKind(s.moves, kind), d).value)
  {
    var at, n := s.promoting.value, |s.moves| - 1;
    var st0: State, f: Cell :| OpensFrom(s, st0, f, d);
    MoveMakes(st0, f, at, d);
    PromotionReplaysToo(st0, f, at, kind, d);
    PromoteAddsNone(s.game, at, kind, d);
    assert s.moves[n] + [ToLower(kind)] == Uci(f, at, Some(kind));
    AppendStaysDiverged(s.moves[..n], st0, PromoteTo(s.game, at, kind, d).value, f, at, Some(kind), d);
  }

  lemma EngineMakes(st: State, f: Cell, t: Cell, d: nat)
    requires EngineTo(st, f, t, d).Some? && EngineTo(st, f, t, d).value.1.Some?
    ensures var st' := EngineTo(st, f, t, d).value.0;
      && LegalTo(st.l, st.whiteToMove, f, t, d) == Yes && Replays(st, st', f, t) && st' != st
      && st'.history == st.history + [Record(f, t, At(st.l.board, f), At(st.l.board, t), st.l.ep, st.l.moved)]
  {
    PassTurnKeeps(Execute(st, f, t), d);
  }

  lemma IdleStaysOpen(s: Session, s': Session, d: nat)
    requires s.promoting.Some? && OpenDiverged(s, d)
    requires s' == s.(turn := s'.turn, thinking := s'.thinking, inFlight := s'.inFlight)
    ensures OpenDiverged(s', d)
  {
    var st0: State, f: Cell :| OpensFrom(s, st0, f, d);
    assert OpensFrom(s', st0, f, d);
  }

  /** A reply that makes no move leaves all that is tracked as it was. */
  lemma IdleTracked(s: Session, s': Session, d: nat)
    requires Tracked(s, d) && s' == s.(turn := s'.turn, thinking := s'.thinking, inFlight := s'.inFlight)
    ensures Tracked(s', d)
  {
    ArrivalsGrow(s, s');
    if s.drifted && s.promoting.Some? { IdleStaysOpen(s, s', d); }
  }

  lemma ReplyTracked(s: Session, gen: nat, reply: Option<AIMove>, d: nat)
    requires SessionOk(s, d) && Grounded(s, d) && Tracked(s, d) && ReplyTo(s, gen, reply, d).Some?
    ensures Tracked(ReplyTo(s, gen, reply, d).value, d)
  {
    if gen == s.generation && reply.Some? && MakesMove(s.game, reply.value, d) {
      EngineAddsOne(s.game, reply.value.From(), reply.value.To(), d);
      EngineTracked(s, reply.value, d);
    } else {
      IdleTracked(s, ReplyTo(s, gen, reply, d).value, d);
    }
  }

  lemma OverMakesNoMove(st: State, m: AIMove, d: nat)
    requires Reached(st) && m.OnBoard() && MakesMove(st, m, d)
    ensures !st.gameOver
  {
    if st.gameOver { OverIsOver(st, m.From(), m.To(), d); }
  }

  /** The list with the engine's move, the first that the replay takes differently. */
  lemma EngineBeginsToDiverge(moves: seq<string>, st: State, m: AIMove, d: nat)
    requires Reached(st) && Rebuilds(moves, st, d) && m.OnBoard() && MakesMove(st, m, d)
    requires IsPawn(At(st.l.board, m.From())) && LastRank(m.To()) && !NamesPawn(m.promotion)
    requires ReplayOf(moves + [Uci(m.From(), m.To(), m.promotion)], d).Some?
    ensures Diverged(EngineTo(st, m.From(), m.To(), d).value.0,
                     ReplayOf(moves + [Uci(m.From(), m.To(), m.promotion)], d).value)
  {
    OverMakesNoMove(st, m, d);
    ReplayedPrefix(moves, Uci(m.From(), m.To(), m.promotion), d);
    DivergesHere(st, ReplayOf(moves, d).value, m.From(), m.To(), m.promotion, d);
  }

  lemma EngineStaysDiverged(moves: seq<string>, st: State, m: AIMove, d: nat)
    requires Reached(st) && m.OnBoard() && MakesMove(st, m, d)
    requires ReplayOf(moves, d).Some? ==> Diverged(st, ReplayOf(moves, d).value)
    requires ReplayOf(moves + [Uci(m.From(), m.To(), m.promotion)], d).Some?
    ensures Diverged(EngineTo(st, m.From(), m.To(), d).value.0,
                     ReplayOf(moves + [Uci(m.From(), m.To(), m.promotion)], d).value)
  {
    EngineMakes(st, m.From(), m.To(), d);
    AppendStaysDiverged(moves, st, EngineTo(st, m.From(), m.To(), d).value.0, m.From(), m.To(), m.promotion, d);
  }

  lemma ArrivalNamed(f: Cell, t: Cell, promo: Option<char>)
    ensures var uci := Uci(f, t, promo);
      (|uci| > 4 ==> !NamesPawn(Some(uci[4]))) <==> !NamesPawn(promo)
  {
    UciParts(f, t, promo);
  }

  lemma EngineMovedCounts(s: Session, st: State, m: AIMove)
    requires MoversCount(s) && s.promoting.None? && m.OnBoard() && |st.history| == |s.game.history| + 1
    ensures var s' := EngineMoved(s, st, m);
      && MoversCount(s') && Replayed(s') == Replayed(s) && s'.skipped == s.skipped
      && s'.movers == s.movers + [ByEngine] && s'.game.history == st.history
      && s'.moves == s.moves + [Uci(m.From(), m.To(), m.promotion)]
  {
  }

  lemma EngineArrives(s: Session, st: State, m: AIMove)
    requires MoversCount(s) && s.promoting.None? && m.OnBoard()
    requires st.history == s.game.history
      + [Record(m.From(), m.To(), At(s.game.l.board, m.From()), At(s.game.l.board, m.To()), s.game.l.ep, s.game.l.moved)]
    ensures MoversCount(EngineMoved(s, st, m))
    ensures EnginePawnArrived(EngineMoved(s, st, m)) <==>
      EnginePawnArrived(s) || (IsPawn(At(s.game.l.board, m.From())) && LastRank(m.To()) && !NamesPawn(m.promotion))
  {
    EngineMovedCounts(s, st, m);
    ArrivalsGrow(s, EngineMoved(s, st, m));
    ArrivalNamed(m.From(), m.To(), m.promotion);
  }

  lemma EngineTracked(s: Session, m: AIMove, d: nat)
    requires SessionOk(s, d) && Grounded(s, d) && Tracked(s, d) && s.thinking && m.OnBoard() && MakesMove(s.game, m, d)
    ensures Tracked(EngineMoved(s, EngineTo(s.game, m.From(), m.To(), d).value.0, m), d)
  {
    var st := EngineTo(s.game, m.From(), m.To(), d).value.0;
    EngineMakes(s.game, m.From(), m.To(), d);
    EngineArrives(s, st, m);
    OnlyPawnsDrift(s, m, d);
    if (s.drifted || Drifts(s.game, m)) && ReplayOf(s.moves + [Uci(m.From(), m.To(), m.promotion)], d).Some? {
      if s.drifted { EngineStaysDiverged(s.moves, s.game, m, d); } else { EngineBeginsToDiverge(s.moves, s.game, m, d); }
    }
  }

  lemma ResumedTracked(list: seq<string>, d: nat)
    requires ResumeTo(list, d).Some?
    ensures Tracked(ResumeTo(list, d).value, d)
  {
    ResumedIsOk(list, d);
  }

  lemma NewTracked(s: Session, d: nat)
    ensures Tracked(Restarted(s), d)
  {
  }

  lemma StepTracked(s: Session, e: Event, d: nat)
    requires SessionOk(s, d) && Grounded(s, d) && Tracked(s, d) && StepTo(s, e, d).Some?
    ensures Tracked(StepTo(s, e, d).value, d)
  {
    match e
    case Tap(f, t) => TapTracked(s, f, t, d);
    case Choose(kind) => ChoiceTracked(s, kind, d);
    case New => NewTracked(s, d);
    case Reply(gen, move) => ReplyTracked(s, gen, move, d);
  }

  lemma {:induction false} SessionsAreTracked(list: seq<string>, s: Session, events: seq<Event>, d: nat)
    requires LettersOk(list) && ResumeTo(list, d) == Some(s)
    requires StepsTo(s, events, d).Some? && forall e :: e in events ==> KindsOk(e)
    ensures Tracked(StepsTo(s, events, d).value, d)
  {
    if events == [] {
      ResumedTracked(list, d);
    } else {
      var before := events[..|events| - 1];
      SessionsAreTracked(list, s, before, d);
      SessionsAreGrounded(list, s, before, d);
      StepTracked(StepsTo(s, before, d).value, events[|events| - 1], d);
    }
  }

  // ------------------------------------------------------------------- the theorem

  predicate SideFollowsRecords(st: State) { st.whiteToMove == (|st.history| % 2 == 0) }

  lemma UciKeepsSide(st: State, uci: string, d: nat)
    requires SideFollowsRecords(st) && ApplyUciTo(st, uci, d).Some?
    ensures SideFollowsRecords(ApplyUciTo(st, uci, d).value)
  {
    if |uci| >= 4 && NamedSquare(uci[..2]).Some? && NamedSquare(uci[2..4]).Some? {
      var f, t := NamedSquare(uci[..2]).value, NamedSquare(uci[2..4]).value;
      MoveSide(st, f, t, d);
      if MoveTo(st, f, t, d).value.1 == Promotion {
        PromotionSide(MoveTo(st, f, t, d).value.0, t, if |uci| > 4 then ToUpper(uci[4]) else 'Q', d);
      }
    }
  }

  lemma MoveSide(st: State, f: Cell, t: Cell, d: nat)
    requires SideFollowsRecords(st) && MoveTo(st, f, t, d).Some?
    ensures var (st', result) := MoveTo(st, f, t, d).value;
      if result == Promotion then st'.whiteToMove != (|st'.history| % 2 == 0) else SideFollowsRecords(st')
  {
    MoveFlips(st, f, t, d);
    MoveAddsOne(st, f, t, d);
    var (st', result) := MoveTo(st, f, t, d).value;
    SideStep(st, st', result);
  }

  lemma SideStep(st: State, st': State, result: MoveResult)
    requires SideFollowsRecords(st) && |st'.history| == |st.history| + One(result != Failed)
    requires st'.whiteToMove == if result == Success then !st.whiteToMove else st.whiteToMove
    ensures if result == Promotion then st'.whiteToMove != (|st'.history| % 2 == 0) else SideFollowsRecords(st')
  {
  }

  lemma PromotionSide(st: State, at: Cell, kind: char, d: nat)
    requires st.whiteToMove != (|st.history| % 2 == 0) && PromoteTo(st, at, kind, d).Some?
    ensures SideFollowsRecords(PromoteTo(st, at, kind, d).value)
  {
    PromotionFlips(st, at, kind, d);
    PromoteAddsNone(st, at, kind, d);
  }

  lemma {:induction false} ReplayKeepsSide(moves: seq<string>, d: nat)
    requires ReplayOf(moves, d).Some?
    ensures SideFollowsRecords(ReplayOf(moves, d).value)
  {
    if moves != [] {
      ReplayKeepsSide(moves[..|moves| - 1], d);
      UciKeepsSide(ReplayOf(moves[..|moves| - 1], d).value, moves[|moves| - 1], d);
    }
  }

  /** While a promotion is open the pawn's side is still to move, which no replay leaves so. */
  lemma OpenIsNotSame(s: Session, d: nat)
    requires Grounded(s, d) && s.promoting.Some? && ReplayOf(s.moves, d).Some?
    ensures !Same(s.game, ReplayOf(s.moves, d).value)
  {
    var st0: State, f: Cell :| Reached(st0) && MoveTo(st0, f, s.promoting.value, d) == Some((s.game, Promotion));
    MoveSide(st0, f, s.promoting.value, d);
    ReplayKeepsSide(s.moves, d);
  }

  /**
    Saving and resuming, exactly: in every session, under every interleaving, and itself
    resumed or not, the move list rebuilds the game if and only if no promotion is open and
    the engine has left no pawn on its last rank in this session. Then the replay settles;
    otherwise it differs, if it settles at all.
   */
  lemma ReplayRestoresExactly(list: seq<string>, s0: Session, events: seq<Event>, d: nat)
    requires LettersOk(list) && ResumeTo(list, d) == Some(s0)
    requires StepsTo(s0, events, d).Some? && forall e :: e in events ==> KindsOk(e)
    ensures var s := StepsTo(s0, events, d).value;
      Rebuilds(s.moves, s.game, d) <==> s.promoting.None? && !EnginePawnArrived(s)
  {
    SessionsAreTracked(list, s0, events, d);
    SessionsAreGrounded(list, s0, events, d);
    var s := StepsTo(s0, events, d).value;
    if ReplayOf(s.moves, d).Some? {
      if s.promoting.Some? {
        OpenIsNotSame(s, d);
      } else if s.drifted {
        DivergedIsNotSame(s.game, ReplayOf(s.moves, d).value);
      }
    }
  }
}
