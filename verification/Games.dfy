/** Theorems about every run of a game from its start position. */
module Games {
  import opened Squares
  import opened Rules
  import opened Settling
  import opened GameState
  import opened Positions
  import opened Runs

  /** The state that a list of completed moves leads to from the start. */
  ghost function Run(plies: seq<Ply>, d: nat): Option<State> {
    if plies == [] then Some(START_STATE)
    else
      match Run(plies[..|plies| - 1], d)
      case None => None
      case Some(st) => PlyTo(st, plies[|plies| - 1], d)
  }

  // ---------------------------------------------------------- the start position

  lemma StartKings()
    ensures At(START_BOARD, HomeOf(true)) == 'K' && At(START_BOARD, HomeOf(false)) == 'k'
    ensures forall s: Cell :: At(START_BOARD, s) == 'K' ==> s == HomeOf(true)
    ensures forall s: Cell :: At(START_BOARD, s) == 'k' ==> s == HomeOf(false)
  {
  }

  lemma StartIsSound()
    ensures Sound(START_STATE.l, true) && Derived(START_STATE) && EndsRightly(START_STATE)
    ensures BothKings(START_BOARD)
  {
    StartKings();
    KingCellIs(START_BOARD, true, HomeOf(true));
    KingCellIs(START_BOARD, false, HomeOf(false));
  }

  lemma StartIsSafe()
    ensures !Checked(START_STATE.l, false)
  {
    StartKings();
    KingCellIs(START_BOARD, false, HomeOf(false));
    forall s: Cell | Holds(START_BOARD, s, true)
      ensures !Attacks(START_STATE.l, At(START_BOARD, s), s, HomeOf(false))
    {
      assert s.row >= 6;
      if s.row == 7 {
        assert At(START_BOARD, s) == "RNBQKBNR"[s.col];
      } else {
        assert At(START_BOARD, s) == 'P';
      }
    }
  }

  // ------------------------------------------------------------------- theorems

  /** What every reachable state satisfies. */
  ghost predicate Reached(st: State) {
    Sound(st.l, st.whiteToMove) && Derived(st) && EndsRightly(st)
  }

  lemma PlyKeepsReached(st: State, ply: Ply, d: nat)
    requires Reached(st) && PlyTo(st, ply, d).Some?
    ensures Reached(PlyTo(st, ply, d).value)
  {
    PlyKeepsSound(st, ply, d);
    PlyKeepsDerived(st, ply, d);
    PlyCompletes(st, ply, d);
    EndIsRecorded(st, ply, d);
  }

  /** The invariant holds along every run. */
  lemma {:induction false} RunsAreReached(plies: seq<Ply>, d: nat)
    requires Run(plies, d).Some?
    ensures Reached(Run(plies, d).value)
    ensures |Run(plies, d).value.history| == |plies|
  {
    if plies == [] {
      StartIsSound();
    } else {
      var before := plies[..|plies| - 1];
      RunsAreReached(before, d);
      PlyKeepsReached(Run(before, d).value, plies[|plies| - 1], d);
      PlyCompletes(Run(before, d).value, plies[|plies| - 1], d);
    }
  }

  /** No en-passant capture of the run uncovers its own king. */
  ghost predicate NeverExposed(plies: seq<Ply>, d: nat)
    requires Run(plies, d).Some?
  {
    plies != [] ==>
      var before, ply := plies[..|plies| - 1], plies[|plies| - 1];
      && NeverExposed(before, d)
      && var st := Run(before, d).value; !Exposes(st.l, st.whiteToMove, ply.from, ply.to)
  }

  /**
    King safety over whole runs: the side that has just moved is not in check, and both
    kings are still on the board.
   */
  lemma {:induction false} RunsAreSafe(plies: seq<Ply>, d: nat)
    requires Run(plies, d).Some? && NeverExposed(plies, d)
    ensures var st := Run(plies, d).value; !Checked(st.l, !st.whiteToMove) && BothKings(st.l.board)
  {
    if plies == [] {
      StartIsSound();
      StartIsSafe();
    } else {
      var before, ply := plies[..|plies| - 1], plies[|plies| - 1];
      var st := Run(before, d).value;
      RunsAreReached(before, d);
      RunsAreSafe(before, d);
      PlyKeepsSound(st, ply, d);
      PlyCompletes(st, ply, d);
      var kind := KindOf(st.l.board, ply);
      KingSafety(st.l, st.whiteToMove, ply.from, ply.to, kind);
      KingsStay(st.l, st.whiteToMove, ply.from, ply.to, kind, true);
      KingsStay(st.l, st.whiteToMove, ply.from, ply.to, kind, false);
    }
  }

  /** ... so the next legal move never takes a king. */
  lemma RunsNeverTakeKings(plies: seq<Ply>, d: nat, f: Cell, t: Cell)
    requires Run(plies, d).Some? && NeverExposed(plies, d)
    requires var st := Run(plies, d).value; LegalTo(st.l, st.whiteToMove, f, t, d) == Yes
    ensures !IsKing(At(Run(plies, d).value.l.board, t))
  {
    var st := Run(plies, d).value;
    RunsAreReached(plies, d);
    RunsAreSafe(plies, d);
    LegalMeans(st.l, st.whiteToMove, f, t, d);
    NoKingIsTaken(st.l, st.whiteToMove, f, t);
    if At(st.l.board, t) == KingOf(st.whiteToMove) {
      if CastlingMove(At(st.l.board, f), f, t) { CastlesFromHome(st.l, st.whiteToMove, f, t); }
    }
  }

  // ---------------------------------------------------------------- take-backs

  /** A game in which moves may also be taken back, even a pawn's before its promotion is chosen. */
  datatype Action = Play(ply: Ply) | TakeBack | Withdraw(from: Cell, to: Cell)

  /** A pawn moved to the last rank, and taken back with its promotion open. */
  ghost function WithdrawTo(st: State, f: Cell, t: Cell, d: nat): Option<State> {
    match MoveTo(st, f, t, d)
    case Some((st', Promotion)) => UndoOf(st')
    case _ => None
  }

  ghost function ActTo(st: State, a: Action, d: nat): Option<State> {
    match a
    case Play(ply) => PlyTo(st, ply, d)
    case TakeBack => UndoOf(st)
    case Withdraw(f, t) => WithdrawTo(st, f, t, d)
  }

  ghost function RunWith(actions: seq<Action>, d: nat): Option<State> {
    if actions == [] then Some(START_STATE)
    else
      match RunWith(actions[..|actions| - 1], d)
      case None => None
      case Some(st) => ActTo(st, actions[|actions| - 1], d)
  }

  /** Withdrawing restores every derived field, whatever the position. */
  lemma WithdrawKeepsDerived(st: State, f: Cell, t: Cell, d: nat)
    requires Derived(st) && WithdrawTo(st, f, t, d).Some?
    ensures Derived(WithdrawTo(st, f, t, d).value)
    ensures WithdrawTo(st, f, t, d).value.history == st.history
  {
    var st1 := Execute(st, f, t);
    assert MoveTo(st, f, t, d) == Some((st1, Promotion));
    LegalMovesAway(st.l, st.whiteToMove, f, t, d);
    assert st1.history[..|st1.history| - 1] == st.history;
  }

  /** Whatever is played and taken back, the derived state agrees with the records. */
  lemma {:induction false} RunsWithUndoAreDerived(actions: seq<Action>, d: nat)
    requires RunWith(actions, d).Some?
    ensures Derived(RunWith(actions, d).value)
  {
    if actions == [] {
      StartIsSound();
    } else {
      var before := actions[..|actions| - 1];
      RunsWithUndoAreDerived(before, d);
      var st := RunWith(before, d).value;
      match actions[|actions| - 1]
      case Play(ply) => PlyKeepsDerived(st, ply, d);
      case TakeBack => UndoKeepsDerived(st);
      case Withdraw(f, t) => WithdrawKeepsDerived(st, f, t, d);
    }
  }

  /** The moves that are still standing when each take-back cancels the last of them. */
  function Standing(actions: seq<Action>): seq<Ply> {
    if actions == [] then []
    else
      var before := Standing(actions[..|actions| - 1]);
      match actions[|actions| - 1]
      case Play(ply) => before + [ply]
      case TakeBack => if before == [] then [] else before[..|before| - 1]
      case Withdraw(_, _) => before
  }

  /** The record of a pawn that changed file and found nothing there. */
  predicate TookEnPassant(r: Record) {
    IsPawn(r.piece) && r.from.col != r.to.col && r.captured == '.'
  }

  predicate PawnStepped(r: Record) { IsPawn(r.piece) && !TookEnPassant(r) }

  /** The last action took an en-passant capture back, and so lost its pawn. */
  ghost predicate Lost(actions: seq<Action>, d: nat)
    requires RunWith(actions, d).Some?
  {
    actions != [] && actions[|actions| - 1].TakeBack? &&
    var before := actions[..|actions| - 1];
    var h := RunWith(before, d).value.history;
    !Lost(before, d) && TookEnPassant(h[|h| - 1])
  }

  /** Nothing was played or withdrawn while a pawn was lost: it can only be taken back on. */
  ghost predicate PlaysOnWhole(actions: seq<Action>, d: nat)
    requires RunWith(actions, d).Some?
  {
    actions != [] ==>
      var before := actions[..|actions| - 1];
      PlaysOnWhole(before, d) && (!actions[|actions| - 1].TakeBack? ==> !Lost(before, d))
  }

  /** The state without the pawn that made the last move. */
  function WithoutLastPawn(st: State): State
    requires st.history != []
  {
    st.(l := st.l.(board := Put(st.l.board, st.history[|st.history| - 1].to, '.')))
  }

  lemma PendingIsIrrelevant(st: State, st0: State, ply: Ply, d: nat)
    requires PlyTo(st, ply, d).Some? && st == st0.(pending := st.pending)
    ensures PlyTo(st0, ply, d).Some?
    ensures var st', st0' := PlyTo(st, ply, d).value, PlyTo(st0, ply, d).value;
      st' == st0'.(pending := st'.pending)
  {
    PlyExact(st, ply, d);
    PlyExact(st0, ply, d);
    assert Made(st, ply) == Made(st0, ply).(pending := st.pending);
  }

  lemma UndoForgetsPending(st: State, st0: State)
    requires UndoOf(st).Some? && st == st0.(pending := st.pending)
    ensures UndoOf(st0).Some?
    ensures UndoOf(st).value == UndoOf(st0).value.(pending := st.pending)
  {
  }

  /** Withdrawing is as if nothing had been done. */
  lemma WithdrawCancels(st: State, st0: State, f: Cell, t: Cell, d: nat)
    requires Reached(st0) && st == st0.(pending := st.pending) && WithdrawTo(st, f, t, d).Some?
    ensures WithdrawTo(st, f, t, d) == Some(st)
  {
    assert Sound(st.l, st.whiteToMove) && Derived(st);
    UndoInvertsOpenPromotion(st, f, t, d);
  }

  lemma TwoStepsAhead(l: Layout, white: bool, f: Cell, t: Cell)
    requires MayMove(l, white, f, t) && IsPawn(At(l.board, f)) && Abs(t.row - f.row) == 2
    ensures t.col == f.col && t.row == f.row + 2 * Forward(white)
  {
  }

  /** The pawn that can be taken en passant is the one that made the last move. */
  lemma PassedPawnMovedLast(plies: seq<Ply>, d: nat, f: Cell, t: Cell)
    requires Run(plies, d).Some?
    requires var st := Run(plies, d).value; EnPassantCapture(st.l.board, f, t) && MayMove(st.l, st.whiteToMove, f, t)
    ensures var h := Run(plies, d).value.history;
      h != [] && h[|h| - 1].to == Passed(f, t) && PawnStepped(h[|h| - 1])
  {
    var st := Run(plies, d).value;
    RunsAreReached(plies, d);
    TakesEnPassant(st.l, st.whiteToMove, f, t);
    var before, ply := plies[..|plies| - 1], plies[|plies| - 1];
    var st0 := Run(before, d).value;
    RunsAreReached(before, d);
    PlyRecords(st0, ply, d);
    PlyKeepsSound(st0, ply, d);
    TwoStepsAhead(st0.l, st0.whiteToMove, ply.from, ply.to);
  }

  /** One take-back, exactly: the last ply undone, but for its pending result and a pawn taken en passant. */
  lemma TakeBackExact(plies: seq<Ply>, d: nat)
    requires Run(plies, d).Some? && plies != []
    ensures var st, st0 := Run(plies, d).value, Run(plies[..|plies| - 1], d).value;
      && st.history != []
      && (if TookEnPassant(st.history[|st.history| - 1]) then
            st0.history != [] && UndoOf(st) == Some(WithoutLastPawn(st0).(pending := st.pending))
            && PawnStepped(st0.history[|st0.history| - 1])
          else UndoOf(st) == Some(st0.(pending := st.pending)))
  {
    var before, ply := plies[..|plies| - 1], plies[|plies| - 1];
    var st0 := Run(before, d).value;
    RunsAreReached(before, d);
    PlyRecords(st0, ply, d);
    PlyKeepsSound(st0, ply, d);
    UndoInverts(st0, ply, d);
    if EnPassantCapture(st0.l.board, ply.from, ply.to) { PassedPawnMovedLast(before, d, ply.from, ply.to); }
  }

  /** Taking the lost pawn's own move back puts everything right: it is put where it came from. */
  lemma UndoOverwrites(st: State)
    requires UndoOf(st).Some? && IsPawn(st.history[|st.history| - 1].piece)
    ensures UndoOf(WithoutLastPawn(st)) == UndoOf(st)
  {
    var r := st.history[|st.history| - 1];
    SameCells(Put(Put(Put(st.l.board, r.to, '.'), r.from, r.piece), r.to, r.captured),
              Put(Put(st.l.board, r.from, r.piece), r.to, r.captured));
  }

  /** The state is the other, but for its pending result and, if lost, the pawn that moved last. */
  predicate Matches(st: State, st0: State, lost: bool) {
    if lost then
      && st0.history != [] && PawnStepped(st0.history[|st0.history| - 1])
      && st == WithoutLastPawn(st0).(pending := st.pending)
    else st == st0.(pending := st.pending)
  }

  /** The state is the one that the moves left standing lead to. */
  ghost predicate AsExpected(actions: seq<Action>, d: nat)
    requires RunWith(actions, d).Some?
  {
    && Run(Standing(actions), d).Some?
    && Matches(RunWith(actions, d).value, Run(Standing(actions), d).value, Lost(actions, d))
  }

  /** What one take-back makes of such a state. */
  lemma MatchUndone(st: State, plies: seq<Ply>, lost: bool, d: nat)
    requires Run(plies, d).Some? && plies != [] && UndoOf(st).Some? && Matches(st, Run(plies, d).value, lost)
    ensures Matches(UndoOf(st).value, Run(plies[..|plies| - 1], d).value,
                    !lost && TookEnPassant(st.history[|st.history| - 1]))
  {
    var st0 := Run(plies, d).value;
    TakeBackExact(plies, d);
    if lost {
      UndoOverwrites(st0);
      UndoForgetsPending(st, WithoutLastPawn(st0));
    } else {
      UndoForgetsPending(st, st0);
    }
  }

  lemma TakeBackUnfolds(actions: seq<Action>, d: nat)
    requires RunWith(actions, d).Some? && actions != [] && actions[|actions| - 1].TakeBack?
    ensures var before := actions[..|actions| - 1];
      && RunWith(before, d).Some? && UndoOf(RunWith(before, d).value) == RunWith(actions, d)
      && Standing(actions) == (if Standing(before) == [] then [] else Standing(before)[..|Standing(before)| - 1])
      && var h := RunWith(before, d).value.history;
         h != [] && (Lost(actions, d) <==> !Lost(before, d) && TookEnPassant(h[|h| - 1]))
  {
  }

  lemma MatchedRecords(st: State, st0: State, lost: bool)
    requires Matches(st, st0, lost)
    ensures st.history == st0.history
  {
  }

  lemma TakeBackAsExpected(actions: seq<Action>, d: nat)
    requires RunWith(actions, d).Some? && actions != [] && actions[|actions| - 1].TakeBack?
    requires AsExpected(actions[..|actions| - 1], d)
    ensures AsExpected(actions, d)
  {
    var before := actions[..|actions| - 1];
    var st, plies, lost := RunWith(before, d).value, Standing(before), Lost(before, d);
    TakeBackUnfolds(actions, d);
    RunsAreReached(plies, d);
    MatchedRecords(st, Run(plies, d).value, lost);
    MatchUndone(st, plies, lost, d);
  }

  /**
    Taking back is as good as never having played: the state is the one that the moves still
    standing lead to, but for a result recorded meanwhile and, right after an en-passant
    capture was taken back, its pawn; taking one more move back makes good for that.
   */
  lemma {:induction false} TakingBackCancels(actions: seq<Action>, d: nat)
    requires RunWith(actions, d).Some? && PlaysOnWhole(actions, d)
    ensures AsExpected(actions, d)
  {
    if actions != [] {
      var before, last := actions[..|actions| - 1], actions[|actions| - 1];
      TakingBackCancels(before, d);
      var plies := Standing(before);
      var st, st0 := RunWith(before, d).value, Run(plies, d).value;
      match last
      case Play(ply) =>
        PendingIsIrrelevant(st, st0, ply, d);
        assert (plies + [ply])[..|plies|] == plies;
      case TakeBack => TakeBackAsExpected(actions, d);
      case Withdraw(f, t) =>
        RunsAreReached(plies, d);
        WithdrawCancels(st, st0, f, t, d);
    }
  }
}
