/** How games end in a session: the result it shows is that of the position on its board. */
module Conclusions {
  import opened Squares
  import opened Settling
  import opened GameState
  import opened Positions
  import opened Runs
  import opened Games
  import opened Replay
  import opened Bridge
  import opened Sessions
  import opened SessionGames
  import opened CalmPositions

  /** The game is over exactly when the side to move is stuck, and its result is the pending one. */
  ghost predicate EndKnown(st: State) {
    && (st.gameOver <==> Stuck(st))
    && st.pending == if st.gameOver then Some(ResultOf(st)) else None
  }

  lemma PlyEnds(st: State, ply: Ply, d: nat)
    requires Reached(st) && EndKnown(st) && PlyTo(st, ply, d).Some?
    ensures !st.gameOver && Reached(PlyTo(st, ply, d).value) && EndKnown(PlyTo(st, ply, d).value)
  {
    PlyNeedsOpenGame(st, ply, d);
    PlyKeepsReached(st, ply, d);
    EndIsRecorded(st, ply, d);
  }

  lemma StartGoesOn(st: State)
    requires st == START_STATE
    ensures Reached(st) && EndKnown(st)
  {
    StartIsSound();
    StartIsCalm();
    ShelteredHasMove(st, true);
  }

  lemma {:induction false} ReplayEnds(list: seq<string>, d: nat)
    requires LettersOk(list) && ReplayOf(list, d).Some?
    ensures Reached(ReplayOf(list, d).value) && EndKnown(ReplayOf(list, d).value)
  {
    if list == [] {
      StartGoesOn(ReplayOf(list, d).value);
    } else {
      ReplayEnds(list[..|list| - 1], d);
      var st := ReplayOf(list[..|list| - 1], d).value;
      var ply := UciIsPly(st, list[|list| - 1], d);
      if ply.Some? { PlyEnds(st, ply.value, d); }
    }
  }

  // ------------------------------------------------------------------ in a session

  /** The result shown, or not yet looked at. */
  function Known(s: Session): Option<GameResult> { if s.result.Some? then s.result else s.game.pending }

  /** What is known of the end is right; nothing is while a promotion is open. */
  ghost predicate Concluded(s: Session) {
    && (s.result.Some? ==> s.game.pending.None?)
    && (if s.promoting.None? then EndKnown(s.game.(pending := Known(s))) else !s.game.gameOver && Known(s).None?)
  }

  /** Nothing is known yet of a game that goes on. */
  lemma OpenGame(s: Session)
    requires Concluded(s) && !s.game.gameOver
    ensures s.game.pending.None? && s.result.None? && (s.promoting.None? ==> EndKnown(s.game))
  {
    if s.promoting.None? { assert s.game.(pending := None) == s.game.(pending := Known(s)); }
  }

  lemma ShownIsKnown(st: State)
    requires EndKnown(st)
    ensures EndKnown(st.(pending := st.pending))
    ensures ResultOf(st.(pending := None)) == ResultOf(st)
  {
    assert st.(pending := st.pending) == st;
  }

  lemma HumanDoneConcludes(s: Session)
    requires EndKnown(s.game) && s.promoting.None? && s.result.None?
    ensures Concluded(HumanDone(s))
    ensures HumanDone(s).game.pending.None?
  {
    ShownIsKnown(s.game);
    assert HumanDone(s).game.(pending := Known(HumanDone(s))) == s.game;
  }

  lemma TapConcludes(s: Session, f: Cell, t: Cell, d: nat)
    requires Grounded(s, d) && Concluded(s) && TapTo(s, f, t, d).Some?
    ensures Concluded(TapTo(s, f, t, d).value)
    ensures TapTo(s, f, t, d).value.game.pending.Some? <==> s.game.pending.Some?
  {
    if HumansTurn(s) && MoveTo(s.game, f, t, d).value.1 != Failed {
      OpenGame(s);
      var (st, result) := MoveTo(s.game, f, t, d).value;
      if result == Success {
        assert PlyTo(s.game, Human(f, t, 'q'), d) == Some(st);
        PlyEnds(s.game, Human(f, t, 'q'), d);
        HumanDoneConcludes(s.(game := st, moves := s.moves + [Uci(f, t, None)]));
      }
    }
  }

  lemma ChoiceConcludes(s: Session, kind: char, d: nat)
    requires Grounded(s, d) && Concluded(s) && PromotionKind(kind) && ChooseTo(s, kind, d).Some?
    ensures Concluded(ChooseTo(s, kind, d).value)
    ensures ChooseTo(s, kind, d).value.game.pending.Some? <==> s.game.pending.Some?
  {
    if s.promoting.Some? {
      var at := s.promoting.value;
      var st0: State, f: Cell :| Reached(st0) && MoveTo(st0, f, at, d) == Some((s.game, Promotion));
      MoveWasOpen(st0, s.game, f, at, d);
      assert PlyTo(st0, Human(f, at, kind), d) == PromoteTo(s.game, at, kind, d);
      PlyEnds(st0, Human(f, at, kind), d);
      var st := PromoteTo(s.game, at, kind, d).value;
      HumanDoneConcludes(s.(game := st, moves := WithKind(s.moves, kind), promoting := None));
    }
  }

  lemma MoveWasOpen(st0: State, st: State, f: Cell, t: Cell, d: nat)
    requires Reached(st0) && MoveTo(st0, f, t, d) == Some((st, Promotion)) && st.pending.None?
    ensures EndKnown(st0)
  {
    LegalMeans(st0.l, st0.whiteToMove, f, t, d);
    assert Legal(st0.l, st0.whiteToMove, f, t);
  }

  lemma EngineDoneConcludes(s: Session, st: State, m: AIMove)
    requires EndKnown(st) && s.promoting.None? && s.result.None? && m.OnBoard()
    ensures Concluded(EngineMoved(s, st, m))
    ensures EngineMoved(s, st, m).game.pending.None?
  {
    ShownIsKnown(st);
    assert EngineMoved(s, st, m).game.(pending := Known(EngineMoved(s, st, m))) == st;
  }

  /** A reply that makes no move leaves the game as it was, and the result. */
  lemma IdleConcludes(s: Session, s': Session)
    requires Concluded(s) && s' == s.(turn := s'.turn, thinking := s'.thinking, inFlight := s'.inFlight)
    ensures Concluded(s')
  {
  }

  lemma ReplyConcludes(s: Session, gen: nat, reply: Option<AIMove>, d: nat)
    requires SessionOk(s, d) && Grounded(s, d) && Concluded(s) && ReplyTo(s, gen, reply, d).Some?
    ensures Concluded(ReplyTo(s, gen, reply, d).value)
    ensures ReplyTo(s, gen, reply, d).value.game.pending.Some? <==> s.game.pending.Some?
  {
    if gen == s.generation && reply.Some? && MakesMove(s.game, reply.value, d) {
      var m := reply.value;
      EngineAddsOne(s.game, m.From(), m.To(), d);
      EngineConcludes(s, m, d);
    } else {
      IdleConcludes(s, ReplyTo(s, gen, reply, d).value);
    }
  }

  lemma EngineConcludes(s: Session, m: AIMove, d: nat)
    requires Grounded(s, d) && Concluded(s) && s.promoting.None? && m.OnBoard() && MakesMove(s.game, m, d)
    ensures !s.game.gameOver && s.game.pending.None?
    ensures var s' := EngineMoved(s, EngineTo(s.game, m.From(), m.To(), d).value.0, m);
      Concluded(s') && s'.game.pending.None?
  {
    var st := EngineTo(s.game, m.From(), m.To(), d).value.0;
    assert PlyTo(s.game, Engine(m.From(), m.To()), d) == Some(st);
    PlyNeedsOpenGame(s.game, Engine(m.From(), m.To()), d);
    OpenGame(s);
    PlyEnds(s.game, Engine(m.From(), m.To()), d);
    EngineDoneConcludes(s, st, m);
  }

  lemma NewConcludes(s: Session)
    ensures Concluded(Restarted(s)) && Restarted(s).game.pending.None?
  {
    StartGoesOn(START_STATE);
    assert START_STATE.(pending := None) == START_STATE;
  }

  lemma StepConcludes(s: Session, e: Event, d: nat)
    requires SessionOk(s, d) && Grounded(s, d) && Concluded(s) && KindsOk(e) && StepTo(s, e, d).Some?
    ensures Concluded(StepTo(s, e, d).value)
    ensures StepTo(s, e, d).value.game.pending.Some? <==> s.game.pending.Some? && !e.New?
  {
    match e
    case Tap(f, t) => TapConcludes(s, f, t, d);
    case Choose(kind) => ChoiceConcludes(s, kind, d);
    case New => NewConcludes(s);
    case Reply(gen, move) => ReplyConcludes(s, gen, move, d);
  }

  predicate NoNewGame(events: seq<Event>) { forall e :: e in events ==> !e.New? }

  lemma {:induction false} SessionsConclude(list: seq<string>, s: Session, events: seq<Event>, d: nat)
    requires LettersOk(list) && ResumeTo(list, d) == Some(s)
    requires StepsTo(s, events, d).Some? && forall e :: e in events ==> KindsOk(e)
    ensures Concluded(StepsTo(s, events, d).value)
    ensures StepsTo(s, events, d).value.game.pending.Some? <==> s.game.gameOver && NoNewGame(events)
  {
    if events == [] {
      ReplayEnds(list, d);
      assert s.game.(pending := s.game.pending) == s.game;
    } else {
      var before, e := events[..|events| - 1], events[|events| - 1];
      SessionsConclude(list, s, before, d);
      SessionsAreGrounded(list, s, before, d);
      StepConcludes(StepsTo(s, before, d).value, e, d);
      assert NoNewGame(events) <==> NoNewGame(before) && !e.New?;
    }
  }

  /**
    The end, exactly: in every session, fresh or resumed, under every interleaving, a result is
    shown if and only if the side to move is stuck, and then it is that of the position: a draw
    unless it is in check, and else the other side has won. Only a session resumed from a list
    that was played to its end shows none, until a new game is started.
   */
  lemma ResultsAreRight(list: seq<string>, s0: Session, events: seq<Event>, d: nat)
    requires LettersOk(list) && ResumeTo(list, d) == Some(s0)
    requires StepsTo(s0, events, d).Some? && forall e :: e in events ==> KindsOk(e)
    ensures var s := StepsTo(s0, events, d).value;
      && (s.result.Some? <==> s.promoting.None? && Stuck(s.game) && !(s0.game.gameOver && NoNewGame(events)))
      && (s.result.Some? ==>
            s.game.gameOver && s.result.value ==
              if !Checked(s.game.l, s.game.whiteToMove) then Draw else if s.game.whiteToMove then BlackWins else WhiteWins)
  {
    SessionsConclude(list, s0, events, d);
    var s := StepsTo(s0, events, d).value;
    if s.promoting.None? {
      assert Stuck(s.game.(pending := Known(s))) <==> Stuck(s.game);
      assert ResultOf(s.game.(pending := Known(s))) == ResultOf(s.game);
    }
  }

  // -------------------------------------------------------------- what is reported

  /** The Result tag of exportPGN, for the human as White. */
  function TagOf(result: GameResult): string {
    match result
    case WhiteWins => "1-0"
    case BlackWins => "0-1"
    case Draw => "1/2-1/2"
  }

  /** resultString: the result as the human's own. */
  function ReportOf(result: GameResult): string {
    match result
    case WhiteWins => "win"
    case BlackWins => "loss"
    case Draw => "draw"
  }

  /** What is sent for a result, given whether the side to move is mated and which side it is. */
  predicate Reports(result: GameResult, mated: bool, white: bool) {
    && (TagOf(result) == "1-0" <==> mated && !white) && (ReportOf(result) == "win" <==> mated && !white)
    && (TagOf(result) == "0-1" <==> mated && white) && (ReportOf(result) == "loss" <==> mated && white)
    && (TagOf(result) == "1/2-1/2" <==> !mated) && (ReportOf(result) == "draw" <==> !mated)
  }

  lemma ReportIsRight(result: GameResult, mated: bool, white: bool)
    requires result == if !mated then Draw else if white then BlackWins else WhiteWins
    ensures Reports(result, mated, white)
  {
    assert "1-0"[0] != "0-1"[0] && |"1-0"| != |"1/2-1/2"|;
    assert "win"[0] != "loss"[0] && "win"[0] != "draw"[0] && "loss"[0] != "draw"[0];
  }

  /** What a finished session reports is what the position says: who is mated, or that nobody is. */
  lemma ReportsAreRight(list: seq<string>, s0: Session, events: seq<Event>, d: nat)
    requires LettersOk(list) && ResumeTo(list, d) == Some(s0)
    requires StepsTo(s0, events, d).Some? && forall e :: e in events ==> KindsOk(e)
    ensures var s := StepsTo(s0, events, d).value;
      s.result.Some? ==> Reports(s.result.value, Checked(s.game.l, s.game.whiteToMove), s.game.whiteToMove)
  {
    ResultsAreRight(list, s0, events, d);
    var s := StepsTo(s0, events, d).value;
    if s.result.Some? { ReportIsRight(s.result.value, Checked(s.game.l, s.game.whiteToMove), s.game.whiteToMove); }
  }
}
