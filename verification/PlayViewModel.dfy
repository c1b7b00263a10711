/** The view model: the object whose fields carry a Session, and its intents and tasks. */
module PlayViewModelClass {
  import opened Squares
  import opened GameState
  import opened Replay
  import opened Bridge
  import opened Sessions
  import opened ChessGameClass

  class PlayViewModel {
    const game: ChessGame
    /** How deeply the attack test may nest in this session. */
    ghost const d: nat

    var turn: Turn
    var generation: nat
    var moveHistory: seq<string>
    var pendingPromotion: Option<Cell>
    var gameResult: Option<GameResult>
    var aiThinking: bool
    var inFlight: multiset<nat>

    ghost var drifted: bool
    ghost var skipped: nat
    ghost var movers: seq<Mover>

    ghost function Now(): Session
      reads this, game
    {
      Session(game.Now(), turn, generation, moveHistory, pendingPromotion, gameResult, aiThinking, inFlight,
              drifted, skipped, movers)
    }

    constructor (ghost depth: nat)
      ensures fresh(game) && d == depth
      ensures Now() == FRESH && SessionOk(Now(), d)
    {
      game := new ChessGame();
      d := depth;
      turn, generation, moveHistory := HumanTurn, 0, [];
      pendingPromotion, gameResult, aiThinking := None, None, false;
      inFlight := multiset{};
      drifted, skipped, movers := false, 0, [];
      new;
      FreshIsOk(depth);
    }

    /** Apply one UCI move to the game, as a replay does. */
    static method ApplyUci(uci: string, game: ChessGame, ghost d: nat)
      requires ApplyUciTo(game.Now(), uci, d).Some?
      modifies game
      ensures ApplyUciTo(old(game.Now()), uci, d) == Some(game.Now())
    {
      if |uci| < 4 { return; }
      var from, to := NamedSquare(uci[..2]), NamedSquare(uci[2..4]);
      if from.None? || to.None? { return; }
      var result := game.Move(from.value, to.value, d);
      if result == Promotion {
        game.Promote(to.value, if |uci| > 4 then ToUpper(uci[4]) else 'Q', d);
      }
    }

    static method ReplayAll(moves: seq<string>, game: ChessGame, ghost d: nat)
      requires game.Now() == START_STATE && ReplayOf(moves, d).Some?
      modifies game
      ensures ReplayOf(moves, d) == Some(game.Now())
    {
      for i := 0 to |moves|
        invariant ReplayOf(moves[..i], d) == Some(game.Now())
      {
        ReplayPrefix(moves, i + 1, d);
        assert moves[..i + 1][..i] == moves[..i];
        ApplyUci(moves[i], game, d);
      }
      assert moves[..|moves|] == moves;
    }

    /** Resume from a saved move list, and let the engine move if it is its turn. */
    constructor Resume(moves: seq<string>, ghost depth: nat)
      requires ReplayOf(moves, depth).Some?
      ensures fresh(game) && d == depth
      ensures Some(Now()) == ResumeTo(moves, depth) && SessionOk(Now(), d)
    {
      game := new ChessGame();
      d := depth;
      turn, generation, moveHistory := HumanTurn, 0, moves;
      pendingPromotion, gameResult, aiThinking := None, None, false;
      inFlight := multiset{};
      drifted, skipped, movers := false, 0, [];
      new;
      ReplayAll(moves, game, depth);
      ResumedIsOk(moves, depth);
      ReplayIsNoLonger(moves, depth);
      skipped := |moves| - |game.history|;
      turn := if game.whiteToMove then HumanTurn else AITurn;
      assert Now() == Resumed(moves, game.Now());
      TriggerAI();
    }

    predicate IsHumanTurn()
      reads this
    {
      turn == HumanTurn && !aiThinking && gameResult.None? && pendingPromotion.None?
    }

    // -------------------------------------------------------------------- intents

    method OnMove(f: Cell, t: Cell)
      requires TapTo(Now(), f, t, d).Some?
      modifies this, game
      ensures Some(Now()) == TapTo(old(Now()), f, t, d)
    {
      if !IsHumanTurn() { return; }
      var result := game.Move(f, t, d);
      match result
      case Failed => MoveFailedIsIdle(old(game.Now()), f, t, d);
      case Promotion =>
        moveHistory := moveHistory + [Uci(f, t, None)];
        pendingPromotion := Some(t);
      case Success =>
        moveHistory := moveHistory + [Uci(f, t, None)];
        AfterHumanMove();
    }

    method CompletePromotion(kind: char)
      requires ChooseTo(Now(), kind, d).Some?
      modifies this, game
      ensures Some(Now()) == ChooseTo(old(Now()), kind, d)
    {
      if pendingPromotion.None? { return; }
      game.Promote(pendingPromotion.value, kind, d);
      if moveHistory != [] {
        var last := moveHistory[|moveHistory| - 1];
        moveHistory := moveHistory[..|moveHistory| - 1];
        moveHistory := moveHistory + [last + [ToLower(kind)]];
      }
      pendingPromotion := None;
      AfterHumanMove();
    }

    method NewGame()
      modifies this, game
      ensures Now() == Restarted(old(Now()))
    {
      generation := generation + 1;
      game.Reset();
      turn := HumanTurn;
      moveHistory := [];
      pendingPromotion := None;
      gameResult := None;
      aiThinking := false;
      ForgetAccount();
    }

    ghost method ForgetAccount()
      modifies this`drifted, this`skipped, this`movers
      ensures !drifted && skipped == 0 && movers == []
    {
      drifted, skipped, movers := false, 0, [];
    }

    // ------------------------------------------------------------------ turn loop

    method AfterHumanMove()
      modifies this, game
      ensures Now() == HumanDone(old(Now()))
    {
      movers := movers + [ByHuman];
      var result := game.ConsumePendingGameResult();
      if result.Some? {
        Finish(result.value);
      } else {
        turn := AITurn;
        TriggerAI();
      }
    }

    method TriggerAI()
      modifies this`aiThinking, this`inFlight
      ensures Now() == Triggered(old(Now()))
    {
      if turn != AITurn || gameResult.Some? { return; }
      aiThinking := true;
      inFlight := inFlight + multiset{generation};
    }

    /** An engine task started in generation gen comes back, with a reply or with none. */
    method Deliver(gen: nat, reply: Option<AIMove>)
      requires ReplyTo(Now(), gen, reply, d).Some?
      modifies this, game
      ensures Some(Now()) == ReplyTo(old(Now()), gen, reply, d)
    {
      inFlight := inFlight - multiset{gen};
      if gen != generation { return; }
      ApplyAIMove(reply);
      aiThinking := false;
    }

    method ApplyAIMove(reply: Option<AIMove>)
      requires EngineMovesTo(Now(), reply, d).Some?
      modifies this, game
      ensures Some(Now()) == EngineMovesTo(old(Now()), reply, d)
    {
      if turn != AITurn { return; }
      turn := HumanTurn;
      if reply.None? { return; }
      var move := reply.value;
      ghost var before := game.Now();
      var captured := game.ApplyAIMove(move.From(), move.To(), d);
      if captured.None? {
        RefusalIsIdle(before, move, d);
        return;
      }
      drifted := drifted || Drifts(before, move);
      moveHistory := moveHistory + [Uci(move.From(), move.To(), move.promotion)];
      movers := movers + [ByEngine];
      var result := game.ConsumePendingGameResult();
      if result.Some? { Finish(result.value); }
    }

    method Finish(result: GameResult)
      modifies this`turn, this`aiThinking, this`gameResult
      ensures Now() == Finished(old(Now()), result)
    {
      turn := HumanTurn;
      aiThinking := false;
      gameResult := Some(result);
    }
  }

  lemma MoveFailedIsIdle(st: State, f: Cell, t: Cell, d: nat)
    requires MoveTo(st, f, t, d).Some? && MoveTo(st, f, t, d).value.1 == Failed
    ensures MoveTo(st, f, t, d).value.0 == st
  {
  }

  lemma RefusalIsIdle(st: State, m: AIMove, d: nat)
    requires EngineTo(st, m.From(), m.To(), d).Some? && EngineTo(st, m.From(), m.To(), d).value.1.None?
    ensures EngineTo(st, m.From(), m.To(), d).value.0 == st
  {
  }
}
