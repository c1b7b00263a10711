/** Whole operations and whole runs do not depend on the depth at which they settle. */
module Depth {
  import opened Squares
  import opened Rules
  import opened Settling
  import opened GameState
  import opened Positions
  import opened Runs
  import opened Games

  lemma AnyLegalKeeps(l: Layout, white: bool, d: nat, d': nat)
    requires d <= d' && AnyLegalTo(l, white, d) != Unsettled
    ensures AnyLegalTo(l, white, d') == AnyLegalTo(l, white, d)
  {
    var hit := AnyFinds(l, white, d);
    if hit.None? {
      forall f: Cell, t: Cell
        ensures !Counts(l, white, d', f, t)
      {
        assert !Counts(l, white, d, f, t);
        LegalKeeps(l, white, f, t, d, d');
      }
      var hit' := AnyFinds(l, white, d');
    } else {
      var (f, t) := hit.value;
      LegalKeeps(l, white, f, t, d, d');
      forall f': Cell, t': Cell | TriedBefore(f', t', f, t)
        ensures !Counts(l, white, d', f', t')
      {
        assert !Counts(l, white, d, f', t');
        LegalKeeps(l, white, f', t', d, d');
      }
      FirstCountDecides(l, white, d', f, t);
    }
  }

  lemma CheckOverStays(st: State, d: nat, d': nat)
    requires d <= d' && CheckOver(st, d).Some?
    ensures CheckOver(st, d') == CheckOver(st, d)
  {
    AnyLegalKeeps(st.l, st.whiteToMove, d, d');
    if AnyLegalTo(st.l, st.whiteToMove, d) == No { CheckKeeps(st.l, st.whiteToMove, d, d'); }
  }

  lemma PlyKeeps(st: State, ply: Ply, d: nat, d': nat)
    requires d <= d' && PlyTo(st, ply, d).Some?
    ensures PlyTo(st, ply, d') == PlyTo(st, ply, d)
  {
    PlyExact(st, ply, d);
    PlyExact(st, ply, d');
    LegalKeeps(st.l, st.whiteToMove, ply.from, ply.to, d, d');
    CheckOverStays(Made(st, ply), d, d');
  }

  /** A run that settles at one depth is the same run at every larger one. */
  lemma {:induction false} RunsKeep(plies: seq<Ply>, d: nat, d': nat)
    requires d <= d' && Run(plies, d).Some?
    ensures Run(plies, d') == Run(plies, d)
  {
    if plies != [] {
      RunsKeep(plies[..|plies| - 1], d, d');
      PlyKeeps(Run(plies[..|plies| - 1], d).value, plies[|plies| - 1], d, d');
    }
  }

  /** And depth 2 is as good as any: a larger one never settles what depth 2 does not. */
  lemma TwoIsEnough(st: State, f: Cell, t: Cell, d: nat)
    requires SoleKings(st.l.board) && HomeKings(st.l) && d >= 2
    ensures LegalTo(st.l, st.whiteToMove, f, t, d) == LegalTo(st.l, st.whiteToMove, f, t, 2)
  {
    LegalExact(st.l, st.whiteToMove, f, t, d);
    LegalExact(st.l, st.whiteToMove, f, t, 2);
  }

  // ------------------------------------------------- when whole operations settle

  /** The first move in scan order whose test says yes or never returns. */
  ghost predicate FirstTelling(l: Layout, white: bool, f: Cell, t: Cell) {
    (Legal(l, white, f, t) || Hangs(l, white, f, t))
    && forall f': Cell, t': Cell :: TriedBefore(f', t', f, t) ==> !Legal(l, white, f', t') && !Hangs(l, white, f', t')
  }

  /** hasAnyLegalMove runs into a test that never returns, before it finds a legal move. */
  ghost predicate SearchHangs(l: Layout, white: bool) {
    exists f: Cell, t: Cell :: FirstTelling(l, white, f, t) && Hangs(l, white, f, t)
  }

  /** No move is legal, and no test hangs. */
  ghost predicate NothingTells(l: Layout, white: bool) {
    forall f: Cell, t: Cell :: !Legal(l, white, f, t) && !Hangs(l, white, f, t)
  }

  lemma CountsExact(l: Layout, white: bool, d: nat, f: Cell, t: Cell)
    requires SoleKings(l.board) && HomeKings(l) && d >= 2
    ensures Counts(l, white, d, f, t) <==> Legal(l, white, f, t) || Hangs(l, white, f, t)
    ensures LegalTo(l, white, f, t, d) == Unsettled <==> Hangs(l, white, f, t)
  {
    LegalExact(l, white, f, t, d);
  }

  lemma TellingCounts(l: Layout, white: bool, d: nat, f: Cell, t: Cell)
    requires SoleKings(l.board) && HomeKings(l) && d >= 2
    ensures FirstTelling(l, white, f, t) <==> CountsFirst(l, white, d, f, t)
  {
    forall f': Cell, t': Cell
      ensures Counts(l, white, d, f', t') <==> Legal(l, white, f', t') || Hangs(l, white, f', t')
    {
      CountsExact(l, white, d, f', t');
    }
  }

  /** hasAnyLegalMove, exactly, at every depth from 2 on. */
  lemma AnyLegalExact(l: Layout, white: bool, d: nat)
    requires SoleKings(l.board) && HomeKings(l) && d >= 2
    ensures AnyLegalTo(l, white, d) ==
      if SearchHangs(l, white) then Unsettled else Of(!NothingTells(l, white))
  {
    var hit := AnyFinds(l, white, d);
    if hit.Some? {
      var (f, t) := hit.value;
      TellingCounts(l, white, d, f, t);
      CountsExact(l, white, d, f, t);
      if f': Cell, t': Cell :| FirstTelling(l, white, f', t') && Hangs(l, white, f', t') {
        TellingCounts(l, white, d, f', t');
        FirstCountDecides(l, white, d, f', t');
        CountsExact(l, white, d, f', t');
      }
    } else {
      forall f: Cell, t: Cell
        ensures !Legal(l, white, f, t) && !Hangs(l, white, f, t)
      {
        CountsExact(l, white, d, f, t);
      }
    }
  }

  /** The end-of-game check never returns: in the search, or in the check test of a stuck side. */
  ghost predicate EndHangs(l: Layout, white: bool) {
    SearchHangs(l, white) || (NothingTells(l, white) && Standoff(l))
  }

  lemma CheckOverExact(st: State, d: nat)
    requires SoleKings(st.l.board) && HomeKings(st.l) && d >= 2
    ensures CheckOver(st, d) ==
      if EndHangs(st.l, st.whiteToMove) then None
      else if NothingTells(st.l, st.whiteToMove) then Some(Over(st, Checked(st.l, st.whiteToMove)))
      else Some(st)
  {
    AnyLegalExact(st.l, st.whiteToMove, d);
    CheckExact(st.l, st.whiteToMove, d);
    if SearchHangs(st.l, st.whiteToMove) { assert !NothingTells(st.l, st.whiteToMove); }
  }

  /**
    A move never returns exactly when its own legality test hangs, or when it is legal and
    completes the turn, and the end-of-game check hangs on the position it leads to.
   */
  lemma MoveHangsExactly(st: State, f: Cell, t: Cell, d: nat)
    requires Sound(st.l, st.whiteToMove) && d >= 2
    ensures MoveTo(st, f, t, d).None? <==>
      && !st.gameOver
      && (|| Hangs(st.l, st.whiteToMove, f, t)
          || (&& Legal(st.l, st.whiteToMove, f, t) && !(IsPawn(At(st.l.board, f)) && LastRank(t))
              && EndHangs(Played(st.l, f, t, None), !st.whiteToMove)))
  {
    LegalExact(st.l, st.whiteToMove, f, t, d);
    if Legal(st.l, st.whiteToMove, f, t) {
      MoveKeepsSound(st.l, st.whiteToMove, f, t, None);
      var st' := Execute(st, f, t);
      assert st'.l == Played(st.l, f, t, None);
      CheckOverExact(st'.(whiteToMove := !st.whiteToMove), d);
    }
  }

  // ------------------------------------------------------------------ kings apart

  /** The two kings stand more than a king's step apart, counted in ranks. */
  ghost predicate RanksApart(b: Board) {
    forall s: Cell, s': Cell :: At(b, s) == 'K' && At(b, s') == 'k' ==> Abs(s.row - s'.row) > 1
  }

  lemma NoStandoffAcrossRanks(l: Layout)
    requires forall s: Cell, s': Cell :: At(l.board, s) == 'K' && At(l.board, s') == 'k' ==> s.row != s'.row
    ensures !Standoff(l)
  {
  }

  /** A king on the trial board stood at most one rank away before. */
  lemma KingStepsOneRank(l: Layout, white: bool, f: Cell, t: Cell, s: Cell) returns (o: Cell)
    requires MayMove(l, white, f, t) && IsKing(At(Trial(l.board, f, t), s))
    ensures At(l.board, o) == At(Trial(l.board, f, t), s) && Abs(o.row - s.row) <= 1
    ensures At(l.board, o) != At(l.board, f) ==> o == s
  {
    TrialCells(l.board, f, t);
    o := if s == t then f else s;
  }

  lemma TrialRanksApart(l: Layout, white: bool, f: Cell, t: Cell, s: Cell, s': Cell)
    requires RanksApart(l.board) && MayMove(l, white, f, t)
    requires At(Trial(l.board, f, t), s) == 'K' && At(Trial(l.board, f, t), s') == 'k'
    ensures s.row != s'.row
  {
    var o := KingStepsOneRank(l, white, f, t, s);
    var o' := KingStepsOneRank(l, white, f, t, s');
    assert Abs(o.row - o'.row) > 1;
  }

  lemma RanksApartNeverHangs(l: Layout, white: bool, f: Cell, t: Cell)
    requires RanksApart(l.board)
    ensures !Hangs(l, white, f, t)
  {
    NoStandoffAcrossRanks(l);
    if MayMove(l, white, f, t) {
      forall s: Cell, s': Cell | At(Trial(l.board, f, t), s) == 'K' && At(Trial(l.board, f, t), s') == 'k'
        ensures s.row != s'.row
      {
        TrialRanksApart(l, white, f, t, s, s');
      }
      NoStandoffAcrossRanks(TryMove(l, f, t));
    }
  }

  /** There every operation returns, and the end-of-game check is the plain one. */
  lemma RanksApartSettles(st: State, d: nat)
    requires SoleKings(st.l.board) && HomeKings(st.l) && RanksApart(st.l.board) && d >= 2
    ensures CheckOver(st, d) == Some(if Stuck(st) then Over(st, Checked(st.l, st.whiteToMove)) else st)
  {
    forall f: Cell, t: Cell
      ensures !Hangs(st.l, st.whiteToMove, f, t)
    {
      RanksApartNeverHangs(st.l, st.whiteToMove, f, t);
    }
    NoStandoffAcrossRanks(st.l);
    CheckOverExact(st, d);
    assert Stuck(st) <==> NothingTells(st.l, st.whiteToMove);
  }

  /** A move that takes no king to another rank leaves them as far apart. */
  lemma RanksStayApart(l: Layout, white: bool, f: Cell, t: Cell)
    requires Sound(l, white) && MayMove(l, white, f, t) && RanksApart(l.board)
    requires IsKing(At(l.board, f)) ==> f.row == t.row
    ensures RanksApart(ExecutedBoard(l.board, f, t))
  {
    var b' := ExecutedBoard(l.board, f, t);
    assert b' == Played(l, f, t, None).board;
    forall s: Cell, s': Cell | At(b', s) == 'K' && At(b', s') == 'k'
      ensures Abs(s.row - s'.row) > 1
    {
      KingsComeFrom(l, white, f, t, None, s);
      KingsComeFrom(l, white, f, t, None, s');
      var o, o' := Origin(l.board, f, t, s), Origin(l.board, f, t, s');
      assert At(l.board, o) == 'K' && At(l.board, o') == 'k' && o.row == s.row && o'.row == s'.row;
    }
  }

  lemma KingsOnRanksApart(l: Layout, white: bool, k: Cell, k': Cell)
    requires Sound(l, white) && KingCell(l.board, true) == Some(k) && KingCell(l.board, false) == Some(k')
    requires Abs(k.row - k'.row) > 1
    ensures RanksApart(l.board)
  {
  }

  /** A legal move is made, and ends the game exactly when it leaves the other side stuck. */
  lemma LegalIsPlayed(st: State, f: Cell, t: Cell, d: nat)
    requires Sound(st.l, st.whiteToMove) && Legal(st.l, st.whiteToMove, f, t) && !st.gameOver && d >= 2
    requires RanksApart(st.l.board) && (IsKing(At(st.l.board, f)) ==> f.row == t.row)
    requires !(IsPawn(At(st.l.board, f)) && LastRank(t))
    ensures var st' := Execute(st, f, t).(whiteToMove := !st.whiteToMove);
      MoveTo(st, f, t, d) == Some((if Stuck(st') then Over(st', Checked(st'.l, st'.whiteToMove)) else st', Success))
  {
    RanksApartNeverHangs(st.l, st.whiteToMove, f, t);
    RanksStayApart(st.l, st.whiteToMove, f, t);
    LegalExact(st.l, st.whiteToMove, f, t, d);
    MoveKeepsSound(st.l, st.whiteToMove, f, t, None);
    var st' := Execute(st, f, t).(whiteToMove := !st.whiteToMove);
    assert st'.l == Played(st.l, f, t, None);
    RanksApartSettles(st', d);
  }
}
