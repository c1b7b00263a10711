/** Whose turn it is: the view model's turn against the side to move of its game. */
module TurnTaking {
  import opened Squares
  import opened GameState
  import opened Replay
  import opened Bridge
  import opened Sessions

  /** There is no reply, or the game refuses it. */
  ghost predicate MakesNoMove(st: State, reply: Option<AIMove>, d: nat) {
    || reply.None?
    || (var made := EngineTo(st, reply.value.From(), reply.value.To(), d); made.Some? && made.value.1.None?)
  }

  /** The event is a reply of the current game that hands the turn back without a move. */
  ghost predicate Fails(s: Session, e: Event, d: nat) {
    e.Reply? && e.gen == s.generation && s.turn == AITurn && MakesNoMove(s.game, e.move, d)
  }

  /** The failed replies of a session since its last new game. */
  ghost function FailedReplies(s: Session, events: seq<Event>, d: nat): nat
    requires StepsTo(s, events, d).Some?
  {
    if events == [] || events[|events| - 1].New? then 0
    else
      var before := events[..|events| - 1];
      FailedReplies(s, before, d) + One(Fails(StepsTo(s, before, d).value, events[|events| - 1], d))
  }

  /** After n failed replies: White is to move on the human's turn if n is even, on the engine's if it is odd. */
  predicate TurnFollows(s: Session, n: nat) {
    s.result.None? ==> (s.game.whiteToMove <==> ((s.turn == HumanTurn) <==> n % 2 == 0))
  }

  lemma MoveFlips(st: State, f: Cell, t: Cell, d: nat)
    requires MoveTo(st, f, t, d).Some?
    ensures var (st', result) := MoveTo(st, f, t, d).value;
      st'.whiteToMove == if result == Success then !st.whiteToMove else st.whiteToMove
  {
  }

  lemma PromotionFlips(st: State, at: Cell, kind: char, d: nat)
    requires PromoteTo(st, at, kind, d).Some?
    ensures PromoteTo(st, at, kind, d).value.whiteToMove == !st.whiteToMove
  {
  }

  lemma EngineFlips(st: State, f: Square, t: Square, d: nat)
    requires EngineTo(st, f, t, d).Some?
    ensures var (st', captured) := EngineTo(st, f, t, d).value;
      st'.whiteToMove == if captured.Some? then !st.whiteToMove else st.whiteToMove
  {
  }

  lemma HumanDoneFollows(s: Session, n: nat)
    requires s.turn == HumanTurn && s.result.None?
    requires s.game.whiteToMove <==> n % 2 == 1
    ensures TurnFollows(HumanDone(s), n)
  {
  }

  lemma TapFollows(s: Session, f: Cell, t: Cell, n: nat, d: nat)
    requires TurnFollows(s, n) && TapTo(s, f, t, d).Some?
    ensures TurnFollows(TapTo(s, f, t, d).value, n)
  {
    if HumansTurn(s) {
      MoveFlips(s.game, f, t, d);
      var (st, result) := MoveTo(s.game, f, t, d).value;
      if result == Success { HumanDoneFollows(s.(game := st, moves := s.moves + [Uci(f, t, None)]), n); }
    }
  }

  lemma ChoiceFollows(s: Session, kind: char, n: nat, d: nat)
    requires SessionOk(s, d) && TurnFollows(s, n) && ChooseTo(s, kind, d).Some?
    ensures TurnFollows(ChooseTo(s, kind, d).value, n)
  {
    if s.promoting.Some? {
      PromotionFlips(s.game, s.promoting.value, kind, d);
      var st := PromoteTo(s.game, s.promoting.value, kind, d).value;
      HumanDoneFollows(s.(game := st, moves := WithKind(s.moves, kind), promoting := None), n);
    }
  }

  lemma EngineDoneFollows(s: Session, st: State, m: AIMove, n: nat)
    requires s.turn == HumanTurn && m.OnBoard() && (st.whiteToMove <==> n % 2 == 0)
    ensures TurnFollows(EngineDone(s, st, m), n)
  {
  }

  /** What the game made of the reply: the state, and the capture or refusal. */
  lemma EngineReplied(s: Session, m: AIMove, d: nat) returns (st: State, captured: Option<char>)
    requires s.turn == AITurn && EngineMovesTo(s, Some(m), d).Some?
    ensures captured.Some? ==> m.OnBoard()
    ensures EngineMovesTo(s, Some(m), d) ==
      Some(if captured.None? then s.(turn := HumanTurn) else EngineDone(s.(turn := HumanTurn), st, m))
    ensures st.whiteToMove == if captured.Some? then !s.game.whiteToMove else s.game.whiteToMove
    ensures MakesNoMove(s.game, Some(m), d) <==> captured.None?
  {
    EngineFlips(s.game, m.From(), m.To(), d);
    st, captured := EngineTo(s.game, m.From(), m.To(), d).value.0, EngineTo(s.game, m.From(), m.To(), d).value.1;
  }

  /** The engine's turn handed back, with a move or, refused, without. */
  lemma MoveOrRefusalFollows(s: Session, m: AIMove, st: State, captured: Option<char>, s': Session, n: nat)
    requires s.turn == AITurn && s.result.None? && TurnFollows(s, n) && (captured.Some? ==> m.OnBoard())
    requires st.whiteToMove == if captured.Some? then !s.game.whiteToMove else s.game.whiteToMove
    requires s' == if captured.None? then s.(turn := HumanTurn) else EngineDone(s.(turn := HumanTurn), st, m)
    ensures TurnFollows(s', n + One(captured.None?))
  {
    if captured.Some? { EngineDoneFollows(s.(turn := HumanTurn), st, m, n); }
  }

  lemma SomeReplyFollows(s: Session, m: AIMove, n: nat, d: nat)
    requires s.turn == AITurn && s.result.None? && TurnFollows(s, n) && EngineMovesTo(s, Some(m), d).Some?
    ensures TurnFollows(EngineMovesTo(s, Some(m), d).value, n + One(MakesNoMove(s.game, Some(m), d)))
  {
    var st, captured := EngineReplied(s, m, d);
    MoveOrRefusalFollows(s, m, st, captured, EngineMovesTo(s, Some(m), d).value, n);
  }

  lemma NoReplyFollows(s: Session, n: nat, d: nat)
    requires s.turn == AITurn && TurnFollows(s, n)
    ensures EngineMovesTo(s, None, d).Some? && TurnFollows(EngineMovesTo(s, None, d).value, n + 1)
  {
  }

  lemma EngineMoveFollows(s: Session, reply: Option<AIMove>, n: nat, d: nat)
    requires s.turn == AITurn && s.result.None? && TurnFollows(s, n) && EngineMovesTo(s, reply, d).Some?
    ensures TurnFollows(EngineMovesTo(s, reply, d).value, n + One(MakesNoMove(s.game, reply, d)))
  {
    if reply == None {
      NoReplyFollows(s, n, d);
    } else {
      assert reply == Some(reply.value);
      SomeReplyFollows(s, reply.value, n, d);
    }
  }

  lemma ReplyFollows(s: Session, gen: nat, reply: Option<AIMove>, n: nat, d: nat)
    requires SessionOk(s, d) && TurnFollows(s, n) && ReplyTo(s, gen, reply, d).Some?
    ensures TurnFollows(ReplyTo(s, gen, reply, d).value, n + One(Fails(s, Reply(gen, reply), d)))
  {
    if gen != s.generation {
      StaleRepliesAreDropped(s, gen, reply, d);
    } else {
      var s' := s.(inFlight := s.inFlight - multiset{gen});
      CurrentReply(s, reply, d);
      EngineMoveFollows(s', reply, n, d);
    }
  }

  lemma StepFollows(s: Session, e: Event, n: nat, d: nat)
    requires SessionOk(s, d) && TurnFollows(s, n) && StepTo(s, e, d).Some?
    ensures TurnFollows(StepTo(s, e, d).value, if e.New? then 0 else n + One(Fails(s, e, d)))
  {
    match e
    case Tap(f, t) => TapFollows(s, f, t, n, d);
    case Choose(kind) => ChoiceFollows(s, kind, n, d);
    case New =>
    case Reply(gen, move) => ReplyFollows(s, gen, move, n, d);
  }

  lemma {:induction false} TurnsKeepFollowing(s: Session, events: seq<Event>, d: nat)
    requires SessionOk(s, d) && TurnFollows(s, 0) && StepsTo(s, events, d).Some?
    ensures TurnFollows(StepsTo(s, events, d).value, FailedReplies(s, events, d))
  {
    if events != [] {
      var before, e := events[..|events| - 1], events[|events| - 1];
      SessionsStayOk(s, before, d);
      TurnsKeepFollowing(s, before, d);
      StepFollows(StepsTo(s, before, d).value, e, FailedReplies(s, before, d), d);
    }
  }

  /** A resumed session gives the turn to the side to move. */
  lemma ResumedFollows(list: seq<string>, d: nat)
    requires ResumeTo(list, d).Some?
    ensures TurnFollows(ResumeTo(list, d).value, 0)
  {
  }

  /**
    Whose turn it is, exactly: in every session, resumed from whatever list or started afresh,
    and until the game ends, the human has White to move after an even number of failed
    replies, and Black after an odd one.
   */
  lemma TurnsFollowReplies(list: seq<string>, s: Session, events: seq<Event>, d: nat)
    requires ResumeTo(list, d) == Some(s) && StepsTo(s, events, d).Some?
    ensures TurnFollows(StepsTo(s, events, d).value, FailedReplies(s, events, d))
  {
    ResumedIsOk(list, d);
    ResumedFollows(list, d);
    TurnsKeepFollowing(s, events, d);
  }

  /**
    Resuming gives the turn to the side to move: a game saved after an odd number of failed
    replies comes back with the other player on turn.
   */
  lemma ResumingMayChangeTheTurn(list: seq<string>, s0: Session, events: seq<Event>, d: nat)
    requires ResumeTo(list, d) == Some(s0) && StepsTo(s0, events, d).Some?
    requires var s := StepsTo(s0, events, d).value; s.result.None? && Rebuilds(s.moves, s.game, d)
    ensures var s := StepsTo(s0, events, d).value;
      && ResumeTo(s.moves, d).Some?
      && (ResumeTo(s.moves, d).value.turn == s.turn <==> FailedReplies(s0, events, d) % 2 == 0)
  {
    TurnsFollowReplies(list, s0, events, d);
    ResumedIsOk(StepsTo(s0, events, d).value.moves, d);
  }
}
