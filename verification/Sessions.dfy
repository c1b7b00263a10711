/**
  A session of the human against the engine, as a state machine over its events: moves,
  promotion choices, new games, and engine replies that come late and in any order.
 */
module Sessions {
  import opened Squares
  import opened GameState
  import opened Replay
  import opened Bridge

  datatype Turn = HumanTurn | AITurn

  datatype Mover = ByHuman | ByEngine

  /** The view model's fields, and below them what the theorems keep account of. */
  datatype Session = Session(
    game: State,
    turn: Turn,
    generation: nat,
    moves: seq<string>,
    promoting: Option<Cell>,
    result: Option<GameResult>,
    thinking: bool,
    /** The engine tasks still to deliver a reply, each by the generation it was started in. */
    inFlight: multiset<nat>,
    /** A move was made that a replay cannot repeat: an engine's pawn on the last rank, or a move after the end. */
    drifted: bool,
    /** Entries of a resumed list that did not become moves. */
    skipped: nat,
    /** Who made each completed move of this game. */
    movers: seq<Mover>)

  const FRESH := Session(START_STATE, HumanTurn, 0, [], None, None, false, multiset{}, false, 0, [])

  predicate HumansTurn(s: Session) {
    s.turn == HumanTurn && !s.thinking && s.result.None? && s.promoting.None?
  }

  // --------------------------------------------------------------------- the steps

  /** triggerAI */
  function Triggered(s: Session): Session {
    if s.turn != AITurn || s.result.Some? then s
    else s.(thinking := true, inFlight := s.inFlight + multiset{s.generation})
  }

  /** finish */
  function Finished(s: Session, result: GameResult): Session {
    s.(turn := HumanTurn, thinking := false, result := Some(result))
  }

  /** afterHumanMove */
  function HumanDone(s: Session): Session {
    var s' := s.(game := s.game.(pending := None), movers := s.movers + [ByHuman]);
    if s.game.pending.Some? then Finished(s', s.game.pending.value) else Triggered(s'.(turn := AITurn))
  }

  /** onMove */
  ghost function TapTo(s: Session, f: Cell, t: Cell, d: nat): Option<Session> {
    if !HumansTurn(s) then Some(s)
    else
      match MoveTo(s.game, f, t, d)
      case None => None
      case Some((st, Failed)) => Some(s)
      case Some((st, Promotion)) => Some(s.(game := st, moves := s.moves + [Uci(f, t, None)], promoting := Some(t)))
      case Some((st, Success)) => Some(HumanDone(s.(game := st, moves := s.moves + [Uci(f, t, None)])))
  }

  /** The last move of the list, its promotion letter added; nothing if there is no move. */
  function WithKind(moves: seq<string>, kind: char): seq<string> {
    if moves == [] then moves
    else moves[..|moves| - 1] + [moves[|moves| - 1] + [ToLower(kind)]]
  }

  /** completePromotion */
  ghost function ChooseTo(s: Session, kind: char, d: nat): Option<Session> {
    if s.promoting.None? then Some(s)
    else
      match PromoteTo(s.game, s.promoting.value, kind, d)
      case None => None
      case Some(st) => Some(HumanDone(s.(game := st, moves := WithKind(s.moves, kind), promoting := None)))
  }

  /** newGame */
  function Restarted(s: Session): Session {
    Session(START_STATE, HumanTurn, s.generation + 1, [], None, None, false, s.inFlight, false, 0, [])
  }

  predicate Drifts(st: State, m: AIMove)
    requires m.OnBoard()
  {
    st.gameOver || (IsPawn(At(st.l.board, m.From())) && LastRank(m.To()) && !NamesPawn(m.promotion))
  }

  /** applyAIMove, the reply accepted */
  function EngineDone(s: Session, st: State, m: AIMove): Session
    requires m.OnBoard()
  {
    var s' := s.(
      game := st.(pending := None),
      moves := s.moves + [Uci(m.From(), m.To(), m.promotion)],
      drifted := s.drifted || Drifts(s.game, m),
      movers := s.movers + [ByEngine]);
    if st.pending.Some? then Finished(s', st.pending.value) else s'
  }

  /** applyAIMove: with no reply, or a refused one, the turn goes back to the human all the same. */
  ghost function EngineMovesTo(s: Session, reply: Option<AIMove>, d: nat): Option<Session> {
    if s.turn != AITurn then Some(s)
    else if reply.None? then Some(s.(turn := HumanTurn))
    else
      match EngineTo(s.game, reply.value.From(), reply.value.To(), d)
      case None => None
      case Some((st, None)) => Some(s.(turn := HumanTurn))
      case Some((st, Some(_))) => Some(EngineDone(s.(turn := HumanTurn), st, reply.value))
  }

  /** The end of an engine task: a reply of an older generation is dropped. */
  ghost function ReplyTo(s: Session, gen: nat, reply: Option<AIMove>, d: nat): Option<Session> {
    if gen !in s.inFlight then None
    else
      var s' := s.(inFlight := s.inFlight - multiset{gen});
      if gen != s.generation then Some(s')
      else
        match EngineMovesTo(s', reply, d)
        case None => None
        case Some(s'') => Some(s''.(thinking := false))
  }

  /** What a replayed list makes of a fresh session. */
  function Resumed(moves: seq<string>, st: State): Session
    requires |st.history| <= |moves|
  {
    FRESH.(game := st, moves := moves, skipped := |moves| - |st.history|,
           turn := if st.whiteToMove then HumanTurn else AITurn)
  }

  /** A session resumed from a saved move list. */
  ghost function ResumeTo(moves: seq<string>, d: nat): Option<Session> {
    match ReplayOf(moves, d)
    case None => None
    case Some(st) =>
      ReplayIsNoLonger(moves, d);
      Some(Triggered(Resumed(moves, st)))
  }

  datatype Event = Tap(from: Cell, to: Cell) | Choose(kind: char) | New | Reply(gen: nat, move: Option<AIMove>)

  ghost function StepTo(s: Session, e: Event, d: nat): Option<Session> {
    match e
    case Tap(f, t) => TapTo(s, f, t, d)
    case Choose(kind) => ChooseTo(s, kind, d)
    case New => Some(Restarted(s))
    case Reply(gen, move) => ReplyTo(s, gen, move, d)
  }

  ghost function StepsTo(s: Session, events: seq<Event>, d: nat): Option<Session> {
    if events == [] then Some(s)
    else
      match StepsTo(s, events[..|events| - 1], d)
      case None => None
      case Some(s') => StepTo(s', events[|events| - 1], d)
  }

  // ------------------------------------------------------------------ the invariant

  /** One reply of the current generation is under way exactly while the engine is thinking. */
  ghost predicate TurnsAgree(s: Session) {
    && (s.thinking <==> s.turn == AITurn)
    && s.inFlight[s.generation] == (if s.thinking then 1 else 0)
    && (forall g :: g in s.inFlight ==> g <= s.generation)
    && (s.result.Some? ==> !s.thinking && s.promoting.None?)
    && (s.promoting.Some? ==> !s.thinking)
  }

  /** The engine never moves twice in a row. */
  predicate MoversAlternate(s: Session) {
    && (forall i :: 0 < i < |s.movers| && s.movers[i] == ByEngine ==> s.movers[i - 1] == ByHuman)
    && (s.thinking ==> s.movers == [] || s.movers[|s.movers| - 1] == ByHuman)
  }

  /** The move list, and nothing else, rebuilds the whole hidden state of the game. */
  ghost predicate ListRebuilds(s: Session, d: nat) {
    !s.drifted ==>
      if s.promoting.None? then Rebuilds(s.moves, s.game, d)
      else RebuildsPawn(s.moves, s.game, s.promoting.value, d)
  }

  predicate CountsAgree(s: Session) {
    |s.moves| == |s.game.history| + s.skipped && (s.promoting.Some? ==> s.moves != [])
  }

  ghost predicate SessionOk(s: Session, d: nat) {
    TurnsAgree(s) && MoversAlternate(s) && CountsAgree(s) && ListRebuilds(s, d)
  }

  lemma MoveAddsOne(st: State, f: Cell, t: Cell, d: nat)
    requires MoveTo(st, f, t, d).Some?
    ensures var (st', result) := MoveTo(st, f, t, d).value;
      |st'.history| == |st.history| + (if result == Failed then 0 else 1)
  {
  }

  lemma EngineAddsOne(st: State, f: Square, t: Square, d: nat)
    requires EngineTo(st, f, t, d).Some? && EngineTo(st, f, t, d).value.1.Some?
    ensures |EngineTo(st, f, t, d).value.0.history| == |st.history| + 1
    ensures f.OnBoard() && t.OnBoard()
  {
  }

  lemma PromoteAddsNone(st: State, at: Cell, kind: char, d: nat)
    requires PromoteTo(st, at, kind, d).Some?
    ensures |PromoteTo(st, at, kind, d).value.history| == |st.history|
  {
  }

  lemma SameKeepsList(moves: seq<string>, st: State, d: nat)
    requires Rebuilds(moves, st, d)
    ensures Rebuilds(moves, st.(pending := None), d)
  {
  }

  /** The part of HumanDone that all completed human moves share. */
  lemma HumanDoneKeeps(s: Session, d: nat)
    requires s.turn == HumanTurn && !s.thinking && s.result.None? && s.promoting.None?
    requires TurnsAgree(s) && MoversAlternate(s) && CountsAgree(s) && ListRebuilds(s, d)
    ensures SessionOk(HumanDone(s), d)
  {
    if !s.drifted { SameKeepsList(s.moves, s.game, d); }
  }

  lemma TapKeeps(s: Session, f: Cell, t: Cell, d: nat)
    requires SessionOk(s, d) && TapTo(s, f, t, d).Some?
    ensures SessionOk(TapTo(s, f, t, d).value, d)
  {
    if HumansTurn(s) {
      MoveAddsOne(s.game, f, t, d);
      var (st, result) := MoveTo(s.game, f, t, d).value;
      var s' := s.(game := st, moves := s.moves + [Uci(f, t, None)]);
      if result == Promotion {
        if !s.drifted { PawnMoveRebuilds(s.moves, s.game, f, t, d); }
      } else if result == Success {
        if !s.drifted { MoveRebuilds(s.moves, s.game, f, t, None, d); }
        HumanDoneKeeps(s', d);
      }
    }
  }

  lemma ChooseKeeps(s: Session, kind: char, d: nat)
    requires SessionOk(s, d) && ChooseTo(s, kind, d).Some?
    ensures SessionOk(ChooseTo(s, kind, d).value, d)
  {
    if s.promoting.Some? {
      PromoteAddsNone(s.game, s.promoting.value, kind, d);
      if !s.drifted { PromotionRebuilds(s.moves, s.game, s.promoting.value, kind, d); }
      var st := PromoteTo(s.game, s.promoting.value, kind, d).value;
      HumanDoneKeeps(s.(game := st, moves := WithKind(s.moves, kind), promoting := None), d);
    }
  }

  lemma NewKeeps(s: Session, d: nat)
    requires SessionOk(s, d)
    ensures SessionOk(Restarted(s), d)
  {
    assert s.inFlight[s.generation + 1] == 0;
  }

  /** The session after an accepted engine move, its task gone. */
  function EngineMoved(s: Session, st: State, m: AIMove): Session
    requires m.OnBoard()
  {
    EngineDone(s.(turn := HumanTurn, inFlight := s.inFlight - multiset{s.generation}), st, m).(thinking := false)
  }

  lemma EngineMovedTurns(s: Session, st: State, m: AIMove)
    requires TurnsAgree(s) && s.thinking && m.OnBoard()
    ensures TurnsAgree(EngineMoved(s, st, m))
  {
  }

  lemma EngineMovedMovers(s: Session, st: State, m: AIMove)
    requires MoversAlternate(s) && s.thinking && m.OnBoard()
    ensures MoversAlternate(EngineMoved(s, st, m))
  {
    var movers := EngineMoved(s, st, m).movers;
    forall i | 0 < i < |movers| && movers[i] == ByEngine
      ensures movers[i - 1] == ByHuman
    {
      if i < |s.movers| { assert s.movers[i] == ByEngine; }
    }
  }

  lemma EngineDoneKeeps(s: Session, st: State, m: AIMove, d: nat)
    requires SessionOk(s, d) && s.thinking && m.OnBoard()
    requires |st.history| == |s.game.history| + 1
    requires !s.drifted && !Drifts(s.game, m) ==>
      Rebuilds(s.moves + [Uci(m.From(), m.To(), m.promotion)], st.(pending := None), d)
    ensures SessionOk(EngineMoved(s, st, m), d)
  {
    EngineMovedTurns(s, st, m);
    EngineMovedMovers(s, st, m);
  }

  lemma EngineMoveKeepsList(s: Session, m: AIMove, d: nat)
    requires SessionOk(s, d) && s.thinking && !s.drifted && m.OnBoard() && !Drifts(s.game, m)
    requires EngineTo(s.game, m.From(), m.To(), d).Some? && EngineTo(s.game, m.From(), m.To(), d).value.1.Some?
    ensures var st := EngineTo(s.game, m.From(), m.To(), d).value.0;
      Rebuilds(s.moves + [Uci(m.From(), m.To(), m.promotion)], st.(pending := None), d)
  {
    EngineMoveRebuilds(s.moves, s.game, m.From(), m.To(), m.promotion, d);
    SameKeepsList(s.moves + [Uci(m.From(), m.To(), m.promotion)], EngineTo(s.game, m.From(), m.To(), d).value.0, d);
  }

  lemma ReplyKeeps(s: Session, gen: nat, reply: Option<AIMove>, d: nat)
    requires SessionOk(s, d) && ReplyTo(s, gen, reply, d).Some?
    ensures SessionOk(ReplyTo(s, gen, reply, d).value, d)
  {
    if gen == s.generation && reply.Some? {
      var m := reply.value;
      if EngineTo(s.game, m.From(), m.To(), d).Some? && EngineTo(s.game, m.From(), m.To(), d).value.1.Some? {
        EngineAddsOne(s.game, m.From(), m.To(), d);
        if !s.drifted && !Drifts(s.game, m) { EngineMoveKeepsList(s, m, d); }
        EngineDoneKeeps(s, EngineTo(s.game, m.From(), m.To(), d).value.0, m, d);
      }
    }
  }

  lemma StepKeeps(s: Session, e: Event, d: nat)
    requires SessionOk(s, d) && StepTo(s, e, d).Some?
    ensures SessionOk(StepTo(s, e, d).value, d)
  {
    match e
    case Tap(f, t) => TapKeeps(s, f, t, d);
    case Choose(kind) => ChooseKeeps(s, kind, d);
    case New => NewKeeps(s, d);
    case Reply(gen, move) => ReplyKeeps(s, gen, move, d);
  }

  /** Under every interleaving of events, from a fresh or a resumed session. */
  lemma {:induction false} SessionsStayOk(s: Session, events: seq<Event>, d: nat)
    requires SessionOk(s, d) && StepsTo(s, events, d).Some?
    ensures SessionOk(StepsTo(s, events, d).value, d)
  {
    if events != [] {
      var before := events[..|events| - 1];
      SessionsStayOk(s, before, d);
      StepKeeps(StepsTo(s, before, d).value, events[|events| - 1], d);
    }
  }

  lemma FreshIsOk(d: nat)
    ensures SessionOk(FRESH, d)
  {
  }

  lemma ApplyUciAddsAtMostOne(st: State, uci: string, d: nat)
    requires ApplyUciTo(st, uci, d).Some?
    ensures |ApplyUciTo(st, uci, d).value.history| <= |st.history| + 1
  {
    if |uci| >= 4 && NamedSquare(uci[..2]).Some? && NamedSquare(uci[2..4]).Some? {
      var f, t := NamedSquare(uci[..2]).value, NamedSquare(uci[2..4]).value;
      MoveAddsOne(st, f, t, d);
      if MoveTo(st, f, t, d).value.1 == Promotion {
        PromoteAddsNone(MoveTo(st, f, t, d).value.0, t, if |uci| > 4 then ToUpper(uci[4]) else 'Q', d);
      }
    }
  }

  lemma {:induction false} ReplayIsNoLonger(moves: seq<string>, d: nat)
    requires ReplayOf(moves, d).Some?
    ensures |ReplayOf(moves, d).value.history| <= |moves|
  {
    if moves != [] {
      ReplayIsNoLonger(moves[..|moves| - 1], d);
      ApplyUciAddsAtMostOne(ReplayOf(moves[..|moves| - 1], d).value, moves[|moves| - 1], d);
    }
  }

  /** Any list whose replay settles can be resumed, and the session is in order. */
  lemma ResumedIsOk(moves: seq<string>, d: nat)
    requires ReplayOf(moves, d).Some?
    ensures ResumeTo(moves, d).Some? && SessionOk(ResumeTo(moves, d).value, d)
  {
    ReplayIsNoLonger(moves, d);
  }

  /** A fresh session is one resumed from the empty list. */
  lemma FreshIsResumed(d: nat)
    ensures ResumeTo([], d) == Some(FRESH)
  {
  }

  /**
    Saving is lossless: between moves, and while no move has drifted, resuming from the
    move list gives back the game with its board, flags, en-passant target and records.
   */
  lemma ResumeRestores(s: Session, d: nat)
    requires SessionOk(s, d) && !s.drifted && s.promoting.None?
    ensures ResumeTo(s.moves, d).Some?
    ensures Same(s.game, ResumeTo(s.moves, d).value.game)
  {
    ResumedIsOk(s.moves, d);
  }

  /** A reply from before the current game changes nothing but the list of tasks under way. */
  lemma StaleRepliesAreDropped(s: Session, gen: nat, reply: Option<AIMove>, d: nat)
    requires gen in s.inFlight && gen != s.generation
    ensures ReplyTo(s, gen, reply, d) == Some(s.(inFlight := s.inFlight - multiset{gen}))
  {
  }

  /** After a new game every task then under way is stale, whatever happens until it replies. */
  lemma {:induction false} OldTasksStayStale(s: Session, events: seq<Event>, d: nat, gen: nat)
    requires SessionOk(s, d) && gen in s.inFlight && StepsTo(Restarted(s), events, d).Some?
    ensures gen < StepsTo(Restarted(s), events, d).value.generation
  {
    if events != [] {
      var before := events[..|events| - 1];
      OldTasksStayStale(s, before, d, gen);
      GenerationsGrow(StepsTo(Restarted(s), before, d).value, events[|events| - 1], d);
    }
  }

  lemma GenerationsGrow(s: Session, e: Event, d: nat)
    requires StepTo(s, e, d).Some?
    ensures s.generation <= StepTo(s, e, d).value.generation
  {
    match e
    case Tap(f, t) => TapKeepsGeneration(s, f, t, d);
    case Choose(kind) => ChoiceKeepsGeneration(s, kind, d);
    case New =>
    case Reply(gen, move) => ReplyKeepsGeneration(s, gen, move, d);
  }

  lemma TapKeepsGeneration(s: Session, f: Cell, t: Cell, d: nat)
    requires TapTo(s, f, t, d).Some?
    ensures TapTo(s, f, t, d).value.generation == s.generation
  {
  }

  lemma ChoiceKeepsGeneration(s: Session, kind: char, d: nat)
    requires ChooseTo(s, kind, d).Some?
    ensures ChooseTo(s, kind, d).value.generation == s.generation
  {
  }

  lemma ReplyKeepsGeneration(s: Session, gen: nat, reply: Option<AIMove>, d: nat)
    requires ReplyTo(s, gen, reply, d).Some?
    ensures ReplyTo(s, gen, reply, d).value.generation == s.generation
  {
  }

  // --------------------------------------------------------- replies of an older game

  /** The same session with one more task under way. */
  function WithTask(s: Session, gen: nat): Session { s.(inFlight := s.inFlight + multiset{gen}) }

  lemma TaskLeaves(tasks: multiset<nat>, gen: nat, g: nat)
    requires g in tasks
    ensures (tasks + multiset{gen}) - multiset{g} == (tasks - multiset{g}) + multiset{gen}
  {
  }

  lemma StepIgnoresStale(s: Session, e: Event, gen: nat, d: nat)
    requires gen < s.generation && StepTo(s, e, d).Some?
    ensures StepTo(WithTask(s, gen), e, d) == Some(WithTask(StepTo(s, e, d).value, gen))
  {
    match e
    case Tap(f, t) => TapIgnoresStale(s, f, t, gen, d);
    case Choose(kind) => ChoiceIgnoresStale(s, kind, gen, d);
    case New =>
    case Reply(g, move) => ReplyIgnoresStale(s, g, move, gen, d);
  }

  lemma HumanDoneIgnoresStale(s: Session, gen: nat)
    ensures HumanDone(WithTask(s, gen)) == WithTask(HumanDone(s), gen)
  {
    assert s.inFlight + multiset{gen} + multiset{s.generation} == s.inFlight + multiset{s.generation} + multiset{gen};
  }

  lemma TapIgnoresStale(s: Session, f: Cell, t: Cell, gen: nat, d: nat)
    requires TapTo(s, f, t, d).Some?
    ensures TapTo(WithTask(s, gen), f, t, d) == Some(WithTask(TapTo(s, f, t, d).value, gen))
  {
    if HumansTurn(s) && MoveTo(s.game, f, t, d).value.1 == Success {
      var s' := s.(game := MoveTo(s.game, f, t, d).value.0, moves := s.moves + [Uci(f, t, None)]);
      HumanDoneIgnoresStale(s', gen);
    }
  }

  lemma ChoiceIgnoresStale(s: Session, kind: char, gen: nat, d: nat)
    requires ChooseTo(s, kind, d).Some?
    ensures ChooseTo(WithTask(s, gen), kind, d) == Some(WithTask(ChooseTo(s, kind, d).value, gen))
  {
    if s.promoting.Some? {
      var st := PromoteTo(s.game, s.promoting.value, kind, d).value;
      HumanDoneIgnoresStale(s.(game := st, moves := WithKind(s.moves, kind), promoting := None), gen);
    }
  }

  lemma EngineIgnoresStale(s: Session, reply: Option<AIMove>, gen: nat, d: nat)
    requires EngineMovesTo(s, reply, d).Some?
    ensures EngineMovesTo(WithTask(s, gen), reply, d) == Some(WithTask(EngineMovesTo(s, reply, d).value, gen))
  {
  }

  function Idle(s: Session): Session { s.(thinking := false) }

  lemma CurrentReply(s: Session, reply: Option<AIMove>, d: nat)
    requires s.generation in s.inFlight
    ensures var moved := EngineMovesTo(s.(inFlight := s.inFlight - multiset{s.generation}), reply, d);
      ReplyTo(s, s.generation, reply, d) == if moved.None? then None else Some(Idle(moved.value))
  {
  }

  lemma ReplyIgnoresStale(s: Session, g: nat, reply: Option<AIMove>, gen: nat, d: nat)
    requires gen < s.generation && ReplyTo(s, g, reply, d).Some?
    ensures ReplyTo(WithTask(s, gen), g, reply, d) == Some(WithTask(ReplyTo(s, g, reply, d).value, gen))
  {
    TaskLeaves(s.inFlight, gen, g);
    if g != s.generation {
      StaleRepliesAreDropped(s, g, reply, d);
      StaleRepliesAreDropped(WithTask(s, gen), g, reply, d);
    } else {
      CurrentReply(s, reply, d);
      CurrentReply(WithTask(s, gen), reply, d);
      EngineIgnoresStale(s.(inFlight := s.inFlight - multiset{g}), reply, gen, d);
    }
  }

  lemma {:induction false} StepsIgnoreStale(s: Session, events: seq<Event>, gen: nat, d: nat)
    requires gen < s.generation && StepsTo(s, events, d).Some?
    ensures StepsTo(WithTask(s, gen), events, d) == Some(WithTask(StepsTo(s, events, d).value, gen))
    ensures gen < StepsTo(s, events, d).value.generation
  {
    if events != [] {
      var before, e := events[..|events| - 1], events[|events| - 1];
      StepsIgnoreStale(s, before, gen, d);
      StepIgnoresStale(StepsTo(s, before, d).value, e, gen, d);
      GenerationsGrow(StepsTo(s, before, d).value, e, d);
    }
  }

  /**
    A task in flight when a new game starts never touches it: whatever has happened meanwhile,
    its reply changes nothing but the tasks under way, and all that follows goes as if it
    had never come back.
   */
  lemma OldRepliesChangeNothing(
    s: Session, before: seq<Event>, gen: nat, reply: Option<AIMove>, after: seq<Event>, d: nat)
    requires SessionOk(s, d) && gen in s.inFlight && StepsTo(Restarted(s), before, d).Some?
    requires gen in StepsTo(Restarted(s), before, d).value.inFlight
    ensures var s1 := StepsTo(Restarted(s), before, d).value;
      var s2 := s1.(inFlight := s1.inFlight - multiset{gen});
      && ReplyTo(s1, gen, reply, d) == Some(s2)
      && (StepsTo(s2, after, d).Some? ==> StepsTo(s1, after, d) == Some(WithTask(StepsTo(s2, after, d).value, gen)))
  {
    OldTasksStayStale(s, before, d, gen);
    var s1 := StepsTo(Restarted(s), before, d).value;
    var s2 := s1.(inFlight := s1.inFlight - multiset{gen});
    StaleRepliesAreDropped(s1, gen, reply, d);
    assert s1.inFlight == s2.inFlight + multiset{gen};
    if StepsTo(s2, after, d).Some? { StepsIgnoreStale(s2, after, gen, d); }
  }
}
