/** The sample game played in a session: a list that does not rebuild it, and a failed reply. */
module SampleSession {
  import opened Squares
  import opened GameState
  import opened Replay
  import opened Bridge
  import opened Sessions
  import opened SessionGames
  import opened Divergence
  import opened CalmPositions
  import opened SampleGame

  /** The human is to move, and no task is under way. */
  predicate Ready(s: Session, st: State) {
    && HumansTurn(s) && s.game == st && st.pending.None? && s.generation == 0 && s.inFlight == multiset{}
    && MoversCount(s)
  }

  /** The session after a human move that goes as played, the engine thinking. */
  function Tapped(s: Session, f: Cell, t: Cell): Session {
    s.(game := Next(s.game, f, t), turn := AITurn, moves := s.moves + [Uci(f, t, None)],
       thinking := true, inFlight := multiset{0}, movers := s.movers + [ByHuman])
  }

  lemma TapGoes(s: Session, f: Cell, t: Cell, d: nat)
    requires Ready(s, s.game) && MoveTo(s.game, f, t, d) == Some((Next(s.game, f, t), Success))
    ensures TapTo(s, f, t, d) == Some(Tapped(s, f, t))
  {
    assert s.inFlight + multiset{0} == multiset{0};
    assert Next(s.game, f, t).(pending := None) == Next(s.game, f, t);
  }

  /** The engine is thinking. */
  predicate AwaitsReply(s: Session) {
    && s.game.pending.None? && s.turn == AITurn && s.thinking && s.generation == 0 && s.inFlight == multiset{0}
    && s.promoting.None? && s.result.None? && MoversCount(s)
  }

  lemma TappedAwaits(s: Session, f: Cell, t: Cell)
    requires Ready(s, s.game)
    ensures AwaitsReply(Tapped(s, f, t))
  {
  }

  /** ... and after the engine's answer. */
  function Answered(s: Session, m: AIMove): Session
    requires m.OnBoard()
  {
    s.(game := Next(s.game, m.From(), m.To()), turn := HumanTurn,
       moves := s.moves + [Uci(m.From(), m.To(), m.promotion)],
       thinking := false, inFlight := multiset{}, drifted := s.drifted || Drifts(s.game, m), movers := s.movers + [ByEngine])
  }

  lemma ReplyGoes(s: Session, m: AIMove, d: nat)
    requires AwaitsReply(s) && m.OnBoard()
    requires EngineTo(s.game, m.From(), m.To(), d) ==
      Some((Next(s.game, m.From(), m.To()), Some(At(s.game.l.board, m.To()))))
    ensures ReplyTo(s, 0, Some(m), d) == Some(Answered(s, m))
  {
    assert s.inFlight - multiset{0} == multiset{};
    assert Next(s.game, m.From(), m.To()).(pending := None) == Next(s.game, m.From(), m.To());
  }

  lemma AnsweredIsReady(s: Session, m: AIMove)
    requires AwaitsReply(s) && m.OnBoard()
    ensures Ready(Answered(s, m), Next(s.game, m.From(), m.To()))
  {
  }

  lemma StepsMore(events: seq<Event>, e: Event, d: nat)
    requires StepsTo(FRESH, events, d).Some?
    ensures StepsTo(FRESH, events + [e], d) == StepTo(StepsTo(FRESH, events, d).value, e, d)
  {
    assert (events + [e])[..|events|] == events;
  }

  function RoundPlayed(s: Session, f: Cell, t: Cell, m: AIMove): Session
    requires m.OnBoard()
  {
    Answered(Tapped(s, f, t), m)
  }

  lemma TapRound(events: seq<Event>, s: Session, f: Cell, t: Cell, d: nat)
    requires StepsTo(FRESH, events, d) == Some(s) && Ready(s, s.game)
    requires MoveTo(s.game, f, t, d) == Some((Next(s.game, f, t), Success))
    ensures StepsTo(FRESH, events + [Tap(f, t)], d) == Some(Tapped(s, f, t)) && AwaitsReply(Tapped(s, f, t))
  {
    StepsMore(events, Tap(f, t), d);
    TapGoes(s, f, t, d);
    TappedAwaits(s, f, t);
  }

  lemma AnswerRound(events: seq<Event>, s: Session, m: AIMove, d: nat)
    requires StepsTo(FRESH, events, d) == Some(s) && AwaitsReply(s) && m.OnBoard()
    requires EngineTo(s.game, m.From(), m.To(), d) ==
      Some((Next(s.game, m.From(), m.To()), Some(At(s.game.l.board, m.To()))))
    ensures StepsTo(FRESH, events + [Reply(0, Some(m))], d) == Some(Answered(s, m))
    ensures Ready(Answered(s, m), Next(s.game, m.From(), m.To()))
  {
    StepsMore(events, Reply(0, Some(m)), d);
    ReplyGoes(s, m, d);
    AnsweredIsReady(s, m);
  }

  /** A human move and the engine's answer. */
  lemma Round(events: seq<Event>, s: Session, f: Cell, t: Cell, m: AIMove, d: nat)
    requires StepsTo(FRESH, events, d) == Some(s) && Ready(s, s.game) && m.OnBoard()
    requires MoveTo(s.game, f, t, d) == Some((Next(s.game, f, t), Success))
    requires var st1 := Next(s.game, f, t);
      EngineTo(st1, m.From(), m.To(), d) == Some((Next(st1, m.From(), m.To()), Some(At(st1.l.board, m.To()))))
    ensures StepsTo(FRESH, events + [Tap(f, t)] + [Reply(0, Some(m))], d) == Some(RoundPlayed(s, f, t, m))
    ensures Ready(RoundPlayed(s, f, t, m), Next(Next(s.game, f, t), m.From(), m.To()))
  {
    TapRound(events, s, f, t, d);
    AnswerRound(events + [Tap(f, t)], Tapped(s, f, t), m, d);
  }

  /** The first ten half-moves of the sample game, the human's and the engine's. */
  const SESSION: seq<Event> := [
    Tap(Square(6, 7), Square(4, 7)), Reply(0, Some(AIMove(1, 6, 3, 6, None))),
    Tap(Square(6, 0), Square(4, 0)), Reply(0, Some(AIMove(3, 6, 4, 7, None))),
    Tap(Square(7, 0), Square(5, 0)), Reply(0, Some(AIMove(4, 7, 5, 7, None))),
    Tap(Square(4, 0), Square(3, 0)), Reply(0, Some(AIMove(5, 7, 6, 6, None))),
    Tap(Square(5, 0), Square(5, 7)), Reply(0, Some(AIMove(6, 6, 7, 7, None)))]

  /** The session after some rounds of the sample game. */
  ghost predicate Reaches(events: seq<Event>, s: Session, b: Board, d: nat) {
    StepsTo(FRESH, events, d) == Some(s) && Ready(s, s.game) && Stands(s.game, b, true) && !s.drifted
  }

  function WithRound1(events: seq<Event>): seq<Event> {
    events + [Tap(Square(6, 7), Square(4, 7))] + [Reply(0, Some(AIMove(1, 6, 3, 6, None)))]
  }

  function WithRound2(events: seq<Event>): seq<Event> {
    events + [Tap(Square(6, 0), Square(4, 0))] + [Reply(0, Some(AIMove(3, 6, 4, 7, None)))]
  }

  function WithRound3(events: seq<Event>): seq<Event> {
    events + [Tap(Square(7, 0), Square(5, 0))] + [Reply(0, Some(AIMove(4, 7, 5, 7, None)))]
  }

  function WithRound4(events: seq<Event>): seq<Event> {
    events + [Tap(Square(4, 0), Square(3, 0))] + [Reply(0, Some(AIMove(5, 7, 6, 6, None)))]
  }

  function WithRound5(events: seq<Event>): seq<Event> {
    events + [Tap(Square(5, 0), Square(5, 7))] + [Reply(0, Some(AIMove(6, 6, 7, 7, None)))]
  }

  lemma Round1(events: seq<Event>, s: Session, d: nat) returns (s': Session)
    requires Reaches(events, s, START_BOARD, d) && d >= 2
    ensures Reaches(WithRound1(events), s', AFTER_2, d)
  {
    var f: Cell, t: Cell, m := Square(6, 7), Square(4, 7), AIMove(1, 6, 3, 6, None);
    Move1(s.game, d);
    Move2(Next(s.game, f, t), d);
    Board1();
    Round(events, s, f, t, m, d);
    s' := RoundPlayed(s, f, t, m);
  }

  lemma Round2(events: seq<Event>, s: Session, d: nat) returns (s': Session)
    requires Reaches(events, s, AFTER_2, d) && d >= 2
    ensures Reaches(WithRound2(events), s', AFTER_4, d)
  {
    var f: Cell, t: Cell, m := Square(6, 0), Square(4, 0), AIMove(3, 6, 4, 7, None);
    Move3(s.game, d);
    Move4(Next(s.game, f, t), d);
    Board3();
    Round(events, s, f, t, m, d);
    s' := RoundPlayed(s, f, t, m);
  }

  lemma Round3(events: seq<Event>, s: Session, d: nat) returns (s': Session)
    requires Reaches(events, s, AFTER_4, d) && d >= 2
    ensures Reaches(WithRound3(events), s', AFTER_6, d)
  {
    var f: Cell, t: Cell, m := Square(7, 0), Square(5, 0), AIMove(4, 7, 5, 7, None);
    Move5(s.game, d);
    Move6(Next(s.game, f, t), d);
    Board5();
    Round(events, s, f, t, m, d);
    s' := RoundPlayed(s, f, t, m);
  }

  lemma Round4(events: seq<Event>, s: Session, d: nat) returns (s': Session)
    requires Reaches(events, s, AFTER_6, d) && d >= 2
    ensures Reaches(WithRound4(events), s', AFTER_8, d)
  {
    var f: Cell, t: Cell, m := Square(4, 0), Square(3, 0), AIMove(5, 7, 6, 6, None);
    Move7(s.game, d);
    Move8(Next(s.game, f, t), d);
    Board7();
    Round(events, s, f, t, m, d);
    s' := RoundPlayed(s, f, t, m);
  }

  /** The first eight half-moves. */
  lemma EightMoves(d: nat) returns (events: seq<Event>, s: Session)
    requires d >= 2
    ensures events == SESSION[..8] && Reaches(events, s, AFTER_8, d)
  {
    StartIsCalm();
    events := [];
    var s1 := Round1(events, FRESH, d);
    var s2 := Round2(WithRound1(events), s1, d);
    var s3 := Round3(WithRound2(WithRound1(events)), s2, d);
    s := Round4(WithRound3(WithRound2(WithRound1(events))), s3, d);
    EightEvents(events);
    events := WithRound4(WithRound3(WithRound2(WithRound1(events))));
  }

  lemma EightEvents(events: seq<Event>)
    requires events == []
    ensures WithRound4(WithRound3(WithRound2(WithRound1(events)))) == SESSION[..8]
  {
  }

  /** The engine's pawn comes to h1, whose list entry a replay turns into a queen. */
  lemma PawnComesToH1(st: State, d: nat)
    requires Stands(st, AFTER_9, false) && d >= 2
    ensures At(Next(st, Square(6, 6), Square(7, 7)).l.board, Square(7, 7)) == 'p'
    ensures At(st.l.board, Square(6, 6)) == 'p'
    ensures ApplyUciTo(st, Uci(Square(6, 6), Square(7, 7), None), d).Some?
    ensures At(ApplyUciTo(st, Uci(Square(6, 6), Square(7, 7), None), d).value.l.board, Square(7, 7)) == 'q'
  {
    Board10();
    Move10(st, d);
    Arrives10(st);
    PawnIsReplayed(st, Square(6, 6), Square(7, 7), d);
  }

  lemma Arrives10(st: State)
    requires Stands(st, AFTER_9, false) && At(AFTER_9, Square(6, 6)) == 'p'
    ensures Quiet(st, Square(6, 6), Square(7, 7))
    ensures At(Next(st, Square(6, 6), Square(7, 7)).l.board, Square(7, 7)) == 'p'
  {
  }

  lemma PawnIsReplayed(st: State, f: Cell, t: Cell, d: nat)
    requires Quiet(st, f, t) && At(st.l.board, f) == 'p' && LastRank(t) && d >= 2
    requires MoveTo(st, f, t, d) == Some((Execute(st, f, t), Promotion))
    ensures ApplyUciTo(st, Uci(f, t, None), d).Some?
    ensures At(ApplyUciTo(st, Uci(f, t, None), d).value.l.board, t) == 'q'
  {
    UciPromotes(st, f, t, None, d);
    QuietPromotion(st, f, t, 'Q', d);
    PromotionReplaysToo(st, f, t, 'Q', d);
  }

  /** The human's ninth half-move. */
  lemma NinthMove(events: seq<Event>, s8: Session, d: nat) returns (s9: Session)
    requires Reaches(events, s8, AFTER_8, d) && d >= 2
    ensures StepsTo(FRESH, events + [Tap(Square(5, 0), Square(5, 7))], d) == Some(s9)
    ensures Stands(s9.game, AFTER_9, false) && !s9.drifted && AwaitsReply(s9)
  {
    var f: Cell, t: Cell := Square(5, 0), Square(5, 7);
    Move9(s8.game, d);
    Board9();
    TapRound(events, s8, f, t, d);
    s9 := Tapped(s8, f, t);
  }

  /** The engine's tenth. */
  lemma TenthMove(events: seq<Event>, s9: Session, m: AIMove, d: nat) returns (s: Session)
    requires StepsTo(FRESH, events, d) == Some(s9) && m == AIMove(6, 6, 7, 7, None) && d >= 2
    requires Stands(s9.game, AFTER_9, false) && AwaitsReply(s9)
    ensures StepsTo(FRESH, events + [Reply(0, Some(m))], d) == Some(s) && s.promoting.None? && s.drifted
    ensures s.game == Next(s9.game, Square(6, 6), Square(7, 7))
    ensures s.moves == s9.moves + [Uci(Square(6, 6), Square(7, 7), None)]
  {
    Move10(s9.game, d);
    Board10();
    AnswerRound(events, s9, m, d);
    s := Answered(s9, m);
  }

  /** Until it drifts, a session's list rebuilds its game. */
  lemma UndriftedRebuilds(events: seq<Event>, s: Session, d: nat)
    requires StepsTo(FRESH, events, d) == Some(s) && !s.drifted && s.promoting.None?
    ensures SessionOk(s, d) && Rebuilds(s.moves, s.game, d)
  {
    FreshIsOk(d);
    SessionsStayOk(FRESH, events, d);
  }

  lemma ArrivalReplays(moves: seq<string>, st: State, d: nat)
    requires Rebuilds(moves, st, d) && Stands(st, AFTER_9, false) && d >= 2
    ensures ReplayOf(moves + [Uci(Square(6, 6), Square(7, 7), None)], d).Some?
    ensures At(ReplayOf(moves + [Uci(Square(6, 6), Square(7, 7), None)], d).value.l.board, Square(7, 7)) == 'q'
  {
    var re := ReplayOf(moves, d).value;
    ReplayMore(moves, Uci(Square(6, 6), Square(7, 7), None), d);
    PawnComesToH1(re, d);
  }

  /**
    The concrete case: after these ten half-moves the list replays, and rebuilds another
    position than the one played.
   */
  lemma EnginePawnSpoilsTheList(d: nat) returns (events: seq<Event>, s: Session)
    requires d >= 2
    ensures events == SESSION && StepsTo(FRESH, events, d) == Some(s) && EnginePawnArrived(s) && s.promoting.None?
    ensures At(s.game.l.board, Square(7, 7)) == 'p'
    ensures ReplayOf(s.moves, d).Some? && At(ReplayOf(s.moves, d).value.l.board, Square(7, 7)) == 'q'
  {
    var nine, s9;
    nine, s9, events, s := TenMoves(d);
    SampleKinds(events);
    SpoiltBy(nine, s9, events, s, d);
  }

  lemma TenMoves(d: nat) returns (nine: seq<Event>, s9: Session, events: seq<Event>, s: Session)
    requires d >= 2
    ensures StepsTo(FRESH, nine, d) == Some(s9) && Stands(s9.game, AFTER_9, false) && !s9.drifted && AwaitsReply(s9)
    ensures StepsTo(FRESH, events, d) == Some(s) && s.promoting.None? && s.drifted && events == SESSION
    ensures s.game == Next(s9.game, Square(6, 6), Square(7, 7))
    ensures s.moves == s9.moves + [Uci(Square(6, 6), Square(7, 7), None)]
  {
    var eight, s8 := EightMoves(d);
    var m := AIMove(6, 6, 7, 7, None);
    nine := eight + [Tap(Square(5, 0), Square(5, 7))];
    s9 := NinthMove(eight, s8, d);
    events := nine + [Reply(0, Some(m))];
    s := TenthMove(nine, s9, m, d);
    TenEvents(eight);
  }

  lemma TenEvents(eight: seq<Event>)
    requires eight == SESSION[..8]
    ensures WithRound5(eight) == SESSION
  {
  }

  lemma SampleKinds(events: seq<Event>)
    requires events == SESSION
    ensures forall e :: e in events ==> KindsOk(e)
  {
  }

  lemma SpoiltBy(nine: seq<Event>, s9: Session, events: seq<Event>, s: Session, d: nat)
    requires StepsTo(FRESH, nine, d) == Some(s9) && Stands(s9.game, AFTER_9, false) && !s9.drifted && AwaitsReply(s9)
    requires StepsTo(FRESH, events, d) == Some(s) && s.drifted && forall e :: e in events ==> KindsOk(e)
    requires s.game == Next(s9.game, Square(6, 6), Square(7, 7)) && d >= 2
    requires s.moves == s9.moves + [Uci(Square(6, 6), Square(7, 7), None)]
    ensures EnginePawnArrived(s) && At(s.game.l.board, Square(7, 7)) == 'p'
    ensures ReplayOf(s.moves, d).Some? && At(ReplayOf(s.moves, d).value.l.board, Square(7, 7)) == 'q'
  {
    UndriftedRebuilds(nine, s9, d);
    PawnComesToH1(s9.game, d);
    ArrivalReplays(s9.moves, s9.game, d);
    FreshIsResumed(d);
    SessionsAreTracked([], FRESH, events, d);
  }

  // ------------------------------------------------------------- a failed reply

  lemma TappedShape(s: Session, f: Cell, t: Cell)
    requires s.moves == [] && !s.drifted && s.game.whiteToMove
    ensures !Tapped(s, f, t).drifted && !Tapped(s, f, t).game.whiteToMove && |Tapped(s, f, t).moves| == 1
  {
  }

  lemma FirstMove(events: seq<Event>, s: Session, f: Cell, t: Cell, d: nat)
    requires f == Square(6, 7) && t == Square(4, 7) && d >= 2
    requires StepsTo(FRESH, events, d) == Some(s) && Ready(s, s.game) && Stands(s.game, START_BOARD, true)
    ensures StepsTo(FRESH, events + [Tap(f, t)], d) == Some(Tapped(s, f, t)) && AwaitsReply(Tapped(s, f, t))
  {
    Move1(s.game, d);
    Board1();
    TapRound(events, s, f, t, d);
  }

  lemma NoReplyGoes(s: Session, d: nat)
    requires AwaitsReply(s)
    ensures ReplyTo(s, 0, None, d) == Some(s.(turn := HumanTurn, thinking := false, inFlight := multiset{}))
  {
    assert s.inFlight - multiset{0} == multiset{};
  }

  /** One move, and an engine that gives no reply: the human is on turn, with Black to move; resumed, the engine is. */
  lemma FailedReplyHandsOverBlack(tap: Event, d: nat) returns (s: Session)
    requires tap == Tap(Square(6, 7), Square(4, 7)) && d >= 2
    ensures StepsTo(FRESH, [tap] + [Reply(0, None)], d) == Some(s)
    ensures HumansTurn(s) && !s.game.whiteToMove && |s.moves| == 1
    ensures ResumeTo(s.moves, d).Some? && ResumeTo(s.moves, d).value.turn == AITurn
  {
    var f: Cell, t: Cell := Square(6, 7), Square(4, 7);
    StartIsCalm();
    FirstMove([], FRESH, f, t, d);
    TappedShape(FRESH, f, t);
    assert [] + [tap] == [tap];
    var s1 := Tapped(FRESH, f, t);
    StepsMore([tap], Reply(0, None), d);
    NoReplyGoes(s1, d);
    s := s1.(turn := HumanTurn, thinking := false, inFlight := multiset{});
    UndriftedRebuilds([tap] + [Reply(0, None)], s, d);
    ResumedIsOk(s.moves, d);
  }
}
