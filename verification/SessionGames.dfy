/** Sessions play real games: the theorems about runs hold of every session's position. */
module SessionGames {
  import opened Squares
  import opened GameState
  import opened Positions
  import opened Runs
  import opened Games
  import opened Replay
  import opened Bridge
  import opened Sessions
  import opened Movetext

  /** The session's position is one of a game; or one move of a game away, its promotion open. */
  ghost predicate Grounded(s: Session, d: nat) {
    if s.promoting.None? then Reached(s.game)
    else exists st0: State, f: Cell :: Reached(st0) && MoveTo(st0, f, s.promoting.value, d) == Some((s.game, Promotion))
  }

  /** The promotion picker offers the four pieces; the engine's letter is any that prints. */
  predicate KindsOk(e: Event) {
    && (e.Choose? ==> PromotionKind(e.kind))
    && (e.Reply? && e.move.Some? && e.move.value.promotion.Some? ==> '!' <= ToLower(e.move.value.promotion.value) <= '~')
  }

  /** The letters a saved list may hold: of the four pieces on offer, or of a pawn left as it is. */
  predicate LettersOk(list: seq<string>) {
    forall uci :: uci in list && |uci| > 4 ==> uci[4] in "qrbnpQRBNP"
  }

  lemma ReachedForgetsPending(st: State)
    requires Reached(st)
    ensures Reached(st.(pending := None))
  {
  }

  lemma MoveIsReached(st: State, f: Cell, t: Cell, d: nat)
    requires Reached(st) && MoveTo(st, f, t, d).Some? && MoveTo(st, f, t, d).value.1 == Success
    ensures Reached(MoveTo(st, f, t, d).value.0)
  {
    assert PlyTo(st, Human(f, t, 'q'), d) == Some(MoveTo(st, f, t, d).value.0);
    PlyKeepsReached(st, Human(f, t, 'q'), d);
  }

  lemma PromotionIsReached(st0: State, st: State, f: Cell, at: Cell, kind: char, d: nat)
    requires Reached(st0) && MoveTo(st0, f, at, d) == Some((st, Promotion))
    requires PromotionKind(kind) && PromoteTo(st, at, kind, d).Some?
    ensures Reached(PromoteTo(st, at, kind, d).value)
  {
    assert PlyTo(st0, Human(f, at, kind), d) == PromoteTo(st, at, kind, d);
    PlyKeepsReached(st0, Human(f, at, kind), d);
  }

  lemma EngineMoveIsReached(st: State, f: Cell, t: Cell, d: nat)
    requires Reached(st) && EngineTo(st, f, t, d).Some? && EngineTo(st, f, t, d).value.1.Some?
    ensures Reached(EngineTo(st, f, t, d).value.0)
  {
    assert PlyTo(st, Engine(f, t), d) == Some(EngineTo(st, f, t, d).value.0);
    PlyKeepsReached(st, Engine(f, t), d);
  }

  lemma HumanDoneIsGrounded(s: Session, d: nat)
    requires Reached(s.game) && s.promoting.None?
    ensures Grounded(HumanDone(s), d)
  {
    ReachedForgetsPending(s.game);
  }

  lemma TapIsGrounded(s: Session, f: Cell, t: Cell, d: nat)
    requires SessionOk(s, d) && Grounded(s, d) && TapTo(s, f, t, d).Some?
    ensures Grounded(TapTo(s, f, t, d).value, d)
  {
    if HumansTurn(s) {
      var (st, result) := MoveTo(s.game, f, t, d).value;
      if result == Success {
        MoveIsReached(s.game, f, t, d);
        HumanDoneIsGrounded(s.(game := st, moves := s.moves + [Uci(f, t, None)]), d);
      }
    }
  }

  lemma ChoiceIsGrounded(s: Session, kind: char, d: nat)
    requires SessionOk(s, d) && Grounded(s, d) && PromotionKind(kind) && ChooseTo(s, kind, d).Some?
    ensures Grounded(ChooseTo(s, kind, d).value, d)
  {
    if s.promoting.Some? {
      var at := s.promoting.value;
      var st0: State, f: Cell :| Reached(st0) && MoveTo(st0, f, at, d) == Some((s.game, Promotion));
      PromotionIsReached(st0, s.game, f, at, kind, d);
      var st := PromoteTo(s.game, at, kind, d).value;
      HumanDoneIsGrounded(s.(game := st, moves := WithKind(s.moves, kind), promoting := None), d);
    }
  }

  /** The game accepts the engine's move. */
  ghost predicate MakesMove(st: State, m: AIMove, d: nat) {
    EngineTo(st, m.From(), m.To(), d).Some? && EngineTo(st, m.From(), m.To(), d).value.1.Some?
  }

  lemma ReplyIsGrounded(s: Session, gen: nat, reply: Option<AIMove>, d: nat)
    requires SessionOk(s, d) && Grounded(s, d) && ReplyTo(s, gen, reply, d).Some?
    ensures Grounded(ReplyTo(s, gen, reply, d).value, d)
  {
    if gen == s.generation && reply.Some? {
      var m := reply.value;
      if EngineTo(s.game, m.From(), m.To(), d).Some? && EngineTo(s.game, m.From(), m.To(), d).value.1.Some? {
        EngineMoveIsReached(s.game, m.From(), m.To(), d);
        ReachedForgetsPending(EngineTo(s.game, m.From(), m.To(), d).value.0);
      }
    }
  }

  // ------------------------------------------------------------ resumed sessions

  /** A pawn replayed to the last rank stays a pawn if its letter says so, as in an engine's move. */
  lemma NamedPawnIsEngines(st: State, st': State, f: Cell, t: Cell, d: nat)
    requires MoveTo(st, f, t, d) == Some((st', Promotion)) && PromoteTo(st', t, 'P', d).Some?
    ensures PlyTo(st, Engine(f, t), d) == PromoteTo(st', t, 'P', d)
  {
    LegalMovesAway(st.l, st.whiteToMove, f, t, d);
    PawnStaysPawn(st', t, 'P');
  }

  lemma LettersCrown(letter: char)
    requires letter in "qrbnpQRBNP"
    ensures PromotionKind(ToUpper(letter)) || ToUpper(letter) == 'P'
  {
  }

  lemma PromotionIsPly(st: State, st': State, f: Cell, t: Cell, kind: char, d: nat) returns (ply: Ply)
    requires MoveTo(st, f, t, d) == Some((st', Promotion)) && PromoteTo(st', t, kind, d).Some?
    requires PromotionKind(kind) || kind == 'P'
    ensures PlyTo(st, ply, d) == PromoteTo(st', t, kind, d)
  {
    if kind == 'P' {
      ply := Engine(f, t);
      NamedPawnIsEngines(st, st', f, t, d);
    } else {
      ply := Human(f, t, kind);
    }
  }

  /** An entry replayed is a completed move, or nothing. */
  lemma UciIsPly(st: State, uci: string, d: nat) returns (ply: Option<Ply>)
    requires ApplyUciTo(st, uci, d).Some? && (|uci| > 4 ==> uci[4] in "qrbnpQRBNP")
    ensures ApplyUciTo(st, uci, d) == if ply.Some? then PlyTo(st, ply.value, d) else Some(st)
  {
    ply := None;
    if |uci| >= 4 && NamedSquare(uci[..2]).Some? && NamedSquare(uci[2..4]).Some? {
      var f, t := NamedSquare(uci[..2]).value, NamedSquare(uci[2..4]).value;
      match MoveTo(st, f, t, d).value
      case (_, Failed) =>
      case (_, Success) => ply := Some(Human(f, t, 'q'));
      case (st', Promotion) =>
        if |uci| > 4 { LettersCrown(uci[4]); }
        var p := PromotionIsPly(st, st', f, t, if |uci| > 4 then ToUpper(uci[4]) else 'Q', d);
        ply := Some(p);
    }
  }

  /** Such a list replays to the position of a game. */
  lemma {:induction false} ReplayIsReached(list: seq<string>, d: nat)
    requires LettersOk(list) && ReplayOf(list, d).Some?
    ensures Reached(ReplayOf(list, d).value)
  {
    StartIsSound();
    if list != [] {
      ReplayIsReached(list[..|list| - 1], d);
      var st := ReplayOf(list[..|list| - 1], d).value;
      var ply := UciIsPly(st, list[|list| - 1], d);
      if ply.Some? { PlyKeepsReached(st, ply.value, d); }
    }
  }

  lemma StepSkips(s: Session, e: Event, d: nat)
    requires StepTo(s, e, d).Some?
    ensures StepTo(s, e, d).value.skipped == if e.New? then 0 else s.skipped
  {
    match e
    case Tap(f, t) => TapSkips(s, f, t, d);
    case Choose(kind) => ChoiceSkips(s, kind, d);
    case New =>
    case Reply(gen, move) => ReplySkips(s, gen, move, d);
  }

  lemma TapSkips(s: Session, f: Cell, t: Cell, d: nat)
    requires TapTo(s, f, t, d).Some?
    ensures TapTo(s, f, t, d).value.skipped == s.skipped
  {
  }

  lemma ChoiceSkips(s: Session, kind: char, d: nat)
    requires ChooseTo(s, kind, d).Some?
    ensures ChooseTo(s, kind, d).value.skipped == s.skipped
  {
  }

  lemma ReplySkips(s: Session, gen: nat, reply: Option<AIMove>, d: nat)
    requires ReplyTo(s, gen, reply, d).Some?
    ensures ReplyTo(s, gen, reply, d).value.skipped == s.skipped
  {
  }

  lemma StepIsGrounded(s: Session, e: Event, d: nat)
    requires SessionOk(s, d) && Grounded(s, d) && KindsOk(e) && StepTo(s, e, d).Some?
    ensures Grounded(StepTo(s, e, d).value, d)
  {
    match e
    case Tap(f, t) => TapIsGrounded(s, f, t, d);
    case Choose(kind) => ChoiceIsGrounded(s, kind, d);
    case New => StartIsSound();
    case Reply(gen, move) => ReplyIsGrounded(s, gen, move, d);
  }

  /**
    Every session, resumed from a list or started afresh, stands on a game's position under
    every interleaving of events, and has an entry for each record, besides those of the
    resumed list that were skipped.
   */
  lemma {:induction false} SessionsAreGrounded(list: seq<string>, s: Session, events: seq<Event>, d: nat)
    requires LettersOk(list) && ResumeTo(list, d) == Some(s)
    requires StepsTo(s, events, d).Some? && forall e :: e in events ==> KindsOk(e)
    ensures var s' := StepsTo(s, events, d).value;
      && Grounded(s', d) && SessionOk(s', d)
      && |s'.moves| == |s'.game.history| + s'.skipped && s'.skipped in {0, s.skipped}
  {
    ResumedIsOk(list, d);
    SessionsStayOk(s, events, d);
    if events == [] {
      ReplayIsReached(list, d);
    } else {
      var before, e := events[..|events| - 1], events[|events| - 1];
      SessionsAreGrounded(list, s, before, d);
      assert KindsOk(e);
      StepIsGrounded(StepsTo(s, before, d).value, e, d);
      StepSkips(StepsTo(s, before, d).value, e, d);
    }
  }

  /** So the engine never moves after the end: only a pawn on the last rank can make a session drift. */
  lemma OnlyPawnsDrift(s: Session, m: AIMove, d: nat)
    requires SessionOk(s, d) && Grounded(s, d) && s.thinking && m.OnBoard()
    requires EngineTo(s.game, m.From(), m.To(), d).Some? && EngineTo(s.game, m.From(), m.To(), d).value.1.Some?
    ensures Drifts(s.game, m) <==>
      IsPawn(At(s.game.l.board, m.From())) && LastRank(m.To()) && !NamesPawn(m.promotion)
  {
    if s.game.gameOver { OverIsOver(s.game, m.From(), m.To(), d); }
  }

  // ------------------------------------------------------------ what is exported

  predicate AllTokens(moves: seq<string>) {
    forall m :: m in moves ==> IsMoveToken(m)
  }

  lemma TokensGrow(moves: seq<string>, f: Cell, t: Cell, promo: Option<char>)
    requires AllTokens(moves) && (promo.Some? ==> '!' <= ToLower(promo.value) <= '~')
    ensures AllTokens(moves + [Uci(f, t, promo)])
  {
    UciIsToken(f, t, promo);
  }

  lemma KindKeepsTokens(moves: seq<string>, kind: char)
    requires AllTokens(moves) && PromotionKind(kind)
    ensures AllTokens(WithKind(moves, kind))
  {
    if moves != [] {
      var last := moves[|moves| - 1];
      assert IsMoveToken(last);
      assert (last + [ToLower(kind)])[0] == last[0];
    }
  }

  lemma ReplyKeepsTokens(s: Session, gen: nat, reply: Option<AIMove>, d: nat)
    requires AllTokens(s.moves) && KindsOk(Reply(gen, reply)) && ReplyTo(s, gen, reply, d).Some?
    ensures AllTokens(ReplyTo(s, gen, reply, d).value.moves)
  {
    if gen == s.generation && s.turn == AITurn && reply.Some? {
      var m := reply.value;
      if EngineTo(s.game, m.From(), m.To(), d).value.1.Some? {
        EngineAddsOne(s.game, m.From(), m.To(), d);
        TokensGrow(s.moves, m.From(), m.To(), m.promotion);
      }
    }
  }

  lemma StepKeepsTokens(s: Session, e: Event, d: nat)
    requires AllTokens(s.moves) && KindsOk(e) && StepTo(s, e, d).Some?
    ensures AllTokens(StepTo(s, e, d).value.moves)
  {
    match e
    case Tap(f, t) => TokensGrow(s.moves, f, t, None);
    case Choose(kind) => KindKeepsTokens(s.moves, kind);
    case New =>
    case Reply(gen, move) => ReplyKeepsTokens(s, gen, move, d);
  }

  lemma {:induction false} SessionsHoldTokens(s: Session, events: seq<Event>, d: nat)
    requires AllTokens(s.moves) && StepsTo(s, events, d).Some? && forall e :: e in events ==> KindsOk(e)
    ensures AllTokens(StepsTo(s, events, d).value.moves)
  {
    if events != [] {
      SessionsHoldTokens(s, events[..|events| - 1], d);
      StepKeepsTokens(StepsTo(s, events[..|events| - 1], d).value, events[|events| - 1], d);
    }
  }

  /** Whatever was played, afresh or on from such a list, the movetext exported for it is read back as the very same moves. */
  lemma ExportsReadBack(list: seq<string>, s: Session, events: seq<Event>, d: nat)
    requires AllTokens(list) && ResumeTo(list, d) == Some(s)
    requires StepsTo(s, events, d).Some? && forall e :: e in events ==> KindsOk(e)
    ensures SanMoves(MovetextOf(StepsTo(s, events, d).value.moves)) == StepsTo(s, events, d).value.moves
  {
    SessionsHoldTokens(s, events, d);
    MovetextIsRead(StepsTo(s, events, d).value.moves);
  }
}
