/**
  When the circular tests of Rules settle, and what they then answer.

  On a board with at most one king a side there is exactly one obstacle: two kings
  on one rank two files apart (Facing), with no other piece that the scan would
  meet first (Standoff).  Everywhere else depth 2 is enough, and the answers are
  those of the plain, non-recursive definitions below.
 */
module Settling {
  import opened Squares
  import opened Rules

  // ------------------------------------------------------- plain definitions

  /** A square is attacked, castling moves not counted. */
  ghost predicate AttackedBy(l: Layout, target: Cell, byWhite: bool) {
    exists s: Cell :: Holds(l.board, s, byWhite) && Attacks(l, At(l.board, s), s, target)
  }

  ghost predicate Checked(l: Layout, white: bool) {
    KingCell(l.board, white).Some? && AttackedBy(l, KingCell(l.board, white).value, !white)
  }

  ghost predicate Unique(b: Board, white: bool) {
    forall s: Cell :: At(b, s) == KingOf(white) ==> KingCell(b, white) == Some(s)
  }

  ghost predicate SoleKings(b: Board) { Unique(b, true) && Unique(b, false) }

  /** A king whose flag says it never moved stands on its home square, if it stands at all. */
  ghost predicate HomeKings(l: Layout) {
    && (forall s: Cell :: At(l.board, s) == 'K' && !l.moved.wK ==> s == HomeOf(true))
    && (forall s: Cell :: At(l.board, s) == 'k' && !l.moved.bK ==> s == HomeOf(false))
  }

  ghost predicate Facing(b: Board) {
    KingCell(b, true).Some? && KingCell(b, false).Some?
    && TwoFiles(KingCell(b, true).value, KingCell(b, false).value)
  }

  /** Some piece scanned before the king of its colour attacks the target. */
  ghost predicate EarlyHit(l: Layout, target: Cell, byWhite: bool) {
    exists s: Cell :: Holds(l.board, s, byWhite) && Attacks(l, At(l.board, s), s, target)
      && (forall k: Cell :: At(l.board, k) == KingOf(byWhite) ==> Index(s) < Index(k))
  }

  /** The kings face each other and neither scan is cut short: the tests never settle. */
  ghost predicate Standoff(l: Layout) {
    Facing(l.board)
    && !EarlyHit(l, KingCell(l.board, true).value, false)
    && !EarlyHit(l, KingCell(l.board, false).value, true)
  }

  ghost predicate MayCastle(l: Layout, white: bool, f: Cell, t: Cell)
    requires TwoFiles(f, t)
  {
    && !Checked(l, white)
    && Unmoved(l.moved, white, t.col > f.col)
    && PathClear(l.board, f, Corner(f, t))
    && !AttackedBy(l, PassedOver(f, t), !white)
  }

  // ------------------------------------------------------------ scan of attackers

  lemma {:induction false} SomeStopsFirst(l: Layout, target: Cell, byWhite: bool, d: nat, s: Cell)
    requires Stops(l, target, byWhite, d, s)
    ensures exists f: Cell :: StopsFirst(l, target, byWhite, d, f) && Index(f) <= Index(s)
    decreases Index(s)
  {
    if r: Cell :| Index(r) < Index(s) && Stops(l, target, byWhite, d, r) {
      SomeStopsFirst(l, target, byWhite, d, r);
    } else {
      assert StopsFirst(l, target, byWhite, d, s);
    }
  }

  lemma FirstDecides(l: Layout, target: Cell, byWhite: bool, d: nat, s: Cell)
    requires StopsFirst(l, target, byWhite, d, s)
    ensures AttackedTo(l, target, byWhite, d) == GeometryTo(l, At(l.board, s), s, target, d)
  {
    forall r: Cell | StopsFirst(l, target, byWhite, d, r)
      ensures r == s
    {
      CellAtIndex(r);
      CellAtIndex(s);
      assert Index(r) == Index(s);
    }
  }

  /** The scan answers No, or with the answer of the first cell that stops it. */
  lemma ScanFinds(l: Layout, target: Cell, byWhite: bool, d: nat) returns (hit: Option<Cell>)
    ensures hit.None? ==> AttackedTo(l, target, byWhite, d) == No
    ensures hit.None? ==> forall s: Cell :: !Stops(l, target, byWhite, d, s)
    ensures hit.Some? ==>
      && StopsFirst(l, target, byWhite, d, hit.value)
      && AttackedTo(l, target, byWhite, d) == GeometryTo(l, At(l.board, hit.value), hit.value, target, d)
  {
    if s: Cell :| StopsFirst(l, target, byWhite, d, s) {
      hit := Some(s);
      FirstDecides(l, target, byWhite, d, s);
    } else {
      hit := None;
      if s: Cell :| Stops(l, target, byWhite, d, s) { SomeStopsFirst(l, target, byWhite, d, s); }
    }
  }

  /** Met in scan order, a cell stops the scan exactly when it is the cell the scan finds. */
  lemma PassesOrHits(l: Layout, target: Cell, byWhite: bool, d: nat, hit: Option<Cell>, s: Cell)
    requires hit.None? ==> forall r: Cell :: !Stops(l, target, byWhite, d, r)
    requires hit.Some? ==> StopsFirst(l, target, byWhite, d, hit.value) && Index(s) <= Index(hit.value)
    ensures Stops(l, target, byWhite, d, s) <==> hit == Some(s)
  {
    if hit.Some? { CellAtIndex(s); CellAtIndex(hit.value); }
  }

  /** If every piece's test settles on its plain answer, so does the scan. */
  lemma ScanPlain(l: Layout, target: Cell, byWhite: bool, d: nat)
    requires forall s: Cell :: Holds(l.board, s, byWhite) ==>
      GeometryTo(l, At(l.board, s), s, target, d) == Of(Attacks(l, At(l.board, s), s, target))
    ensures AttackedTo(l, target, byWhite, d) == Of(AttackedBy(l, target, byWhite))
  {
    var hit := ScanFinds(l, target, byWhite, d);
    if hit.None? {
      forall s: Cell | Holds(l.board, s, byWhite)
        ensures !Attacks(l, At(l.board, s), s, target)
      {
        assert !Stops(l, target, byWhite, d, s);
      }
    }
  }

  lemma PlainGeometry(l: Layout, p: char, f: Cell, t: Cell, d: nat)
    requires !(IsKing(p) && TwoFiles(f, t))
    ensures GeometryTo(l, p, f, t, d) == Of(Attacks(l, p, f, t))
  {
  }

  /** A scan for a square that the attacking king is not two files away from. */
  lemma ScanApart(l: Layout, target: Cell, byWhite: bool, d: nat)
    requires forall s: Cell :: At(l.board, s) == KingOf(byWhite) ==> !TwoFiles(s, target)
    ensures AttackedTo(l, target, byWhite, d) == Of(AttackedBy(l, target, byWhite))
  {
    forall s: Cell | Holds(l.board, s, byWhite)
      ensures GeometryTo(l, At(l.board, s), s, target, d) == Of(Attacks(l, At(l.board, s), s, target))
    {
      PlainGeometry(l, At(l.board, s), s, target, d);
    }
    ScanPlain(l, target, byWhite, d);
  }

  /** On any board, kings not facing: the check test settles at every depth. */
  lemma CheckApart(l: Layout, white: bool, d: nat)
    requires KingCell(l.board, white).Some? ==>
      forall s: Cell :: At(l.board, s) == KingOf(!white) ==> !TwoFiles(s, KingCell(l.board, white).value)
    ensures InCheckTo(l, white, d) == Of(Checked(l, white))
  {
    if KingCell(l.board, white).Some? {
      ScanApart(l, KingCell(l.board, white).value, !white, d);
    }
  }

  /** The attacking side's one king, e, is two files from the target. */
  ghost predicate Across(l: Layout, target: Cell, byWhite: bool, e: Cell) {
    && Unique(l.board, byWhite) && KingCell(l.board, byWhite) == Some(e) && TwoFiles(e, target)
    && At(l.board, target) == KingOf(!byWhite)
  }

  lemma AcrossOthers(l: Layout, target: Cell, byWhite: bool, e: Cell, d: nat, s: Cell)
    requires Across(l, target, byWhite, e) && Holds(l.board, s, byWhite) && s != e
    ensures GeometryTo(l, At(l.board, s), s, target, d) == Of(Attacks(l, At(l.board, s), s, target))
  {
    assert At(l.board, s) != KingOf(byWhite);
    PlainGeometry(l, At(l.board, s), s, target, d);
  }

  lemma AcrossEarly(l: Layout, target: Cell, byWhite: bool, e: Cell, d: nat)
    requires Across(l, target, byWhite, e) && EarlyHit(l, target, byWhite)
    ensures AttackedTo(l, target, byWhite, d) == Yes
  {
    var s: Cell :| Holds(l.board, s, byWhite) && Attacks(l, At(l.board, s), s, target)
      && (forall k: Cell :: At(l.board, k) == KingOf(byWhite) ==> Index(s) < Index(k));
    assert At(l.board, e) == KingOf(byWhite);
    AcrossOthers(l, target, byWhite, e, d, s);
    assert Stops(l, target, byWhite, d, s);
    var hit := ScanFinds(l, target, byWhite, d);
    AcrossOthers(l, target, byWhite, e, d, hit.value);
  }

  lemma AcrossLate(l: Layout, target: Cell, byWhite: bool, e: Cell, d: nat)
    requires Across(l, target, byWhite, e) && !EarlyHit(l, target, byWhite)
    ensures AttackedTo(l, target, byWhite, d) ==
      match GeometryTo(l, KingOf(byWhite), e, target, d)
      case No => Of(AttackedBy(l, target, byWhite))
      case a => a
  {
    var hit := ScanFinds(l, target, byWhite, d);
    assert !Attacks(l, KingOf(byWhite), e, target);
    if hit.None? {
      assert !Stops(l, target, byWhite, d, e);
      forall s: Cell | Holds(l.board, s, byWhite)
        ensures !Attacks(l, At(l.board, s), s, target)
      {
        assert !Stops(l, target, byWhite, d, s);
        if s != e { AcrossOthers(l, target, byWhite, e, d, s); }
      }
    } else if hit.value != e {
      var s := hit.value;
      AcrossOthers(l, target, byWhite, e, d, s);
      assert forall k: Cell :: At(l.board, k) == KingOf(byWhite) ==> k == e;
      assert !(Index(s) < Index(e));
      CellAtIndex(s);
      CellAtIndex(e);
      assert !Stops(l, target, byWhite, d, e);
    }
  }

  // ------------------------------------------------------------- the check test

  /** A king that reaches across hands the question to its own check test. */
  lemma ReachesAcross(l: Layout, byWhite: bool, e: Cell, target: Cell, d: nat)
    requires TwoFiles(e, target) && At(l.board, target) == KingOf(!byWhite)
    ensures d == 0 ==> GeometryTo(l, KingOf(byWhite), e, target, d) == Unsettled
    ensures d > 0 && InCheckTo(l, byWhite, d - 1) == Unsettled ==>
      GeometryTo(l, KingOf(byWhite), e, target, d) == Unsettled
    ensures d > 0 && InCheckTo(l, byWhite, d - 1) == Yes ==> GeometryTo(l, KingOf(byWhite), e, target, d) == No
  {
  }

  lemma CheckScan(l: Layout, white: bool, k: Cell, d: nat)
    requires KingCell(l.board, white) == Some(k)
    ensures InCheckTo(l, white, d) == AttackedTo(l, k, !white, d)
    ensures Checked(l, white) == AttackedBy(l, k, !white)
  {
  }

  /** Each king of a facing pair reaches across to the other. */
  lemma FacingAcross(l: Layout, white: bool)
    requires SoleKings(l.board) && Facing(l.board)
    ensures Across(l, KingCell(l.board, white).value, !white, KingCell(l.board, !white).value)
  {
  }

  /** In a standoff no recursion depth is enough. */
  lemma {:induction false} StandoffNeverSettles(l: Layout, white: bool, d: nat)
    requires SoleKings(l.board) && Standoff(l)
    ensures InCheckTo(l, white, d) == Unsettled
    decreases d
  {
    var own, enemy := KingCell(l.board, white).value, KingCell(l.board, !white).value;
    CheckScan(l, white, own, d);
    FacingAcross(l, white);
    AcrossLate(l, own, !white, enemy, d);
    if d > 0 { StandoffNeverSettles(l, !white, d - 1); }
    ReachesAcross(l, !white, enemy, own, d);
  }

  /** Outside a standoff, one nested castling question settles the check test. */
  lemma CheckSettles(l: Layout, white: bool, d: nat)
    requires SoleKings(l.board) && !Standoff(l) && d >= 1
    ensures InCheckTo(l, white, d) == Of(Checked(l, white))
  {
    if !Facing(l.board) {
      CheckApart(l, white, d);
    } else {
      var own, enemy := KingCell(l.board, white).value, KingCell(l.board, !white).value;
      CheckScan(l, white, own, d);
      FacingAcross(l, white);
      if EarlyHit(l, own, !white) {
        AcrossEarly(l, own, !white, enemy, d);
        assert AttackedBy(l, own, !white);
      } else {
        AcrossLate(l, own, !white, enemy, d);
        CheckScan(l, !white, enemy, d - 1);
        FacingAcross(l, !white);
        AcrossEarly(l, enemy, white, own, d - 1);
        ReachesAcross(l, !white, enemy, own, d);
      }
    }
  }

  /** The check test, exactly: for every depth from 1 on, and both colours. */
  lemma CheckExact(l: Layout, white: bool, d: nat)
    requires SoleKings(l.board) && d >= 1
    ensures InCheckTo(l, white, d) == if Standoff(l) then Unsettled else Of(Checked(l, white))
  {
    if Standoff(l) { StandoffNeverSettles(l, white, d); } else { CheckSettles(l, white, d); }
  }

  /** Two bare kings facing each other: the test never settles. */
  lemma BareKingsNeverSettle(l: Layout, white: bool, d: nat)
    requires Facing(l.board)
    requires forall s: Cell :: IsKing(At(l.board, s)) ==> Some(s) == KingCell(l.board, At(l.board, s) == 'K')
    requires forall s: Cell :: At(l.board, s) != '.' ==> IsKing(At(l.board, s))
    ensures InCheckTo(l, white, d) == Unsettled
  {
    assert At(l.board, KingCell(l.board, true).value) == 'K';
    assert At(l.board, KingCell(l.board, false).value) == 'k';
    StandoffNeverSettles(l, white, d);
  }

  // ------------------------------------------------------------- the legality test

  /** A king's two-file move that isLegalGeometry hands to the castling test. */
  predicate CastlingShape(b: Board, f: Cell, t: Cell) {
    IsKing(At(b, f)) && TwoFiles(f, t) && !Barred(b, At(b, f), f, t)
  }

  /** The move is possible as far as the moving piece goes; the own king's safety is still open. */
  ghost predicate MayMove(l: Layout, white: bool, f: Cell, t: Cell) {
    && Holds(l.board, f, white)
    && if CastlingShape(l.board, f, t) then MayCastle(l, white, f, t) else Attacks(l, At(l.board, f), f, t)
  }

  ghost predicate Legal(l: Layout, white: bool, f: Cell, t: Cell) {
    MayMove(l, white, f, t) && !Checked(TryMove(l, f, t), white)
  }

  /** isLegal runs into a standoff: on the board as it is, or on the trial board. */
  ghost predicate Hangs(l: Layout, white: bool, f: Cell, t: Cell) {
    || (Holds(l.board, f, white) && CastlingShape(l.board, f, t) && Standoff(l))
    || (MayMove(l, white, f, t) && Standoff(TryMove(l, f, t)))
  }

  /** With the castling king at home, the enemy king's own castling never reaches the passed-over square. */
  lemma PassedOverPlain(l: Layout, f: Cell, t: Cell, white: bool, d: nat)
    requires SoleKings(l.board) && HomeKings(l) && d >= 1
    requires TwoFiles(f, t) && f == HomeOf(white) && At(l.board, f) == KingOf(white)
    requires At(l.board, PassedOver(f, t)) == '.'
    ensures AttackedTo(l, PassedOver(f, t), !white, d) == Of(AttackedBy(l, PassedOver(f, t), !white))
  {
    var target := PassedOver(f, t);
    forall s: Cell | Holds(l.board, s, !white)
      ensures GeometryTo(l, At(l.board, s), s, target, d) == Of(Attacks(l, At(l.board, s), s, target))
    {
      if IsKing(At(l.board, s)) && TwoFiles(s, target) {
        assert At(l.board, s) == KingOf(!white);
        assert KingCell(l.board, !white) == Some(s) && KingCell(l.board, white) == Some(f);
        CheckApart(l, !white, d - 1);
        assert !Unmoved(l.moved, !white, target.col > s.col);
        assert CanCastleTo(l, KingOf(!white), s, target, d - 1) == No;
      } else {
        PlainGeometry(l, At(l.board, s), s, target, d);
      }
    }
    ScanPlain(l, target, !white, d);
  }

  lemma CastleExact(l: Layout, f: Cell, t: Cell, white: bool, d: nat)
    requires SoleKings(l.board) && HomeKings(l) && d >= 1
    requires TwoFiles(f, t) && At(l.board, f) == KingOf(white)
    ensures CanCastleTo(l, At(l.board, f), f, t, d) ==
      if Standoff(l) then Unsettled else Of(MayCastle(l, white, f, t))
  {
    CheckExact(l, white, d);
    if !Standoff(l) && !Checked(l, white) && Unmoved(l.moved, white, t.col > f.col)
      && PathClear(l.board, f, Corner(f, t))
    {
      assert f == HomeOf(white);
      assert Between(f, PassedOver(f, t), Corner(f, t));
      PassedOverPlain(l, f, t, white, d);
    }
  }

  lemma TrialCells(b: Board, f: Cell, t: Cell)
    requires f != t
    ensures forall s: Cell :: At(Trial(b, f, t), s) == if s == f then '.' else if s == t then At(b, f) else At(b, s)
  {
  }

  lemma KingCellIs(b: Board, white: bool, k: Cell)
    requires At(b, k) == KingOf(white) && forall s: Cell :: At(b, s) == KingOf(white) ==> s == k
    ensures KingCell(b, white) == Some(k) && Unique(b, white)
  {
    CellAtIndex(k);
  }

  /** Moving one piece leaves each side at most one king. */
  lemma TrialSoleKings(b: Board, f: Cell, t: Cell, white: bool)
    requires Unique(b, white) && f != t
    ensures Unique(Trial(b, f, t), white)
  {
    TrialCells(b, f, t);
    var b' := Trial(b, f, t);
    forall s: Cell | At(b', s) == KingOf(white)
      ensures KingCell(b', white) == Some(s)
    {
      forall r: Cell | At(b', r) == KingOf(white)
        ensures r == s
      {
        assert KingCell(b, white) == Some(if r == t then f else r);
        assert KingCell(b, white) == Some(if s == t then f else s);
      }
      KingCellIs(b', white, s);
    }
  }

  lemma GeometryExact(l: Layout, white: bool, f: Cell, t: Cell, d: nat)
    requires SoleKings(l.board) && HomeKings(l) && d >= 2 && Holds(l.board, f, white)
    ensures GeometryTo(l, At(l.board, f), f, t, d) ==
      if CastlingShape(l.board, f, t) && Standoff(l) then Unsettled else Of(MayMove(l, white, f, t))
  {
    if CastlingShape(l.board, f, t) {
      CastleExact(l, f, t, white, d - 1);
    } else if !(IsKing(At(l.board, f)) && TwoFiles(f, t)) {
      PlainGeometry(l, At(l.board, f), f, t, d);
    }
  }

  /**
    The legality test, exactly: depth 2 always suffices unless a standoff is met, and
    then no depth does.
   */
  lemma LegalExact(l: Layout, white: bool, f: Cell, t: Cell, d: nat)
    requires SoleKings(l.board) && HomeKings(l) && d >= 2
    ensures LegalTo(l, white, f, t, d) ==
      if Hangs(l, white, f, t) then Unsettled else Of(Legal(l, white, f, t))
  {
    if Holds(l.board, f, white) {
      GeometryExact(l, white, f, t, d);
      if MayMove(l, white, f, t) {
        TrialSoleKings(l.board, f, t, true);
        TrialSoleKings(l.board, f, t, false);
        CheckExact(TryMove(l, f, t), white, d);
      }
    }
  }

  // ------------------------------------------------------------------ more depth

  /** The castling test answers as its two questions do. */
  lemma CastleAnswersAlike(l: Layout, king: char, f: Cell, t: Cell, d: nat, d': nat)
    requires TwoFiles(f, t) && CanCastleTo(l, king, f, t, d) != Unsettled
    requires InCheckTo(l, IsWhite(king), d') == InCheckTo(l, IsWhite(king), d)
    requires AttackedTo(l, PassedOver(f, t), !IsWhite(king), d) != Unsettled ==>
      AttackedTo(l, PassedOver(f, t), !IsWhite(king), d') == AttackedTo(l, PassedOver(f, t), !IsWhite(king), d)
    ensures CanCastleTo(l, king, f, t, d') == CanCastleTo(l, king, f, t, d)
  {
  }

  lemma GeometryHandsOver(l: Layout, p: char, f: Cell, t: Cell, d: nat)
    requires !Barred(l.board, p, f, t) && IsKing(p) && TwoFiles(f, t)
    ensures GeometryTo(l, p, f, t, d) == if d == 0 then Unsettled else CanCastleTo(l, p, f, t, d - 1)
  {
  }

  lemma CastleAsksCheck(l: Layout, king: char, f: Cell, t: Cell, d: nat)
    requires TwoFiles(f, t) && CanCastleTo(l, king, f, t, d) != Unsettled
    ensures InCheckTo(l, IsWhite(king), d) != Unsettled
  {
  }

  /** On any board whatever: an answer reached at some depth is the answer at every larger one. */
  lemma {:induction false} GeometryKeeps(l: Layout, p: char, f: Cell, t: Cell, d: nat, d': nat)
    requires d <= d' && GeometryTo(l, p, f, t, d) != Unsettled
    ensures GeometryTo(l, p, f, t, d') == GeometryTo(l, p, f, t, d)
    decreases d, 0
  {
    if !Barred(l.board, p, f, t) && IsKing(p) && TwoFiles(f, t) {
      GeometryHandsOver(l, p, f, t, d);
      GeometryHandsOver(l, p, f, t, d');
      CastlingKeeps(l, p, f, t, d - 1, d' - 1);
    } else {
      GeometryIsPlain(l, p, f, t, d, d');
    }
  }

  lemma {:induction false} CastlingKeeps(l: Layout, king: char, f: Cell, t: Cell, d: nat, d': nat)
    requires d <= d' && TwoFiles(f, t) && CanCastleTo(l, king, f, t, d) != Unsettled
    ensures CanCastleTo(l, king, f, t, d') == CanCastleTo(l, king, f, t, d)
    decreases d, 3
  {
    CastleAsksCheck(l, king, f, t, d);
    CheckKeeps(l, IsWhite(king), d, d');
    if AttackedTo(l, PassedOver(f, t), !IsWhite(king), d) != Unsettled {
      AttackedKeeps(l, PassedOver(f, t), !IsWhite(king), d, d');
    }
    CastleAnswersAlike(l, king, f, t, d, d');
  }

  lemma GeometryIsPlain(l: Layout, p: char, f: Cell, t: Cell, d: nat, d': nat)
    requires Barred(l.board, p, f, t) || !(IsKing(p) && TwoFiles(f, t))
    ensures GeometryTo(l, p, f, t, d') == GeometryTo(l, p, f, t, d)
  {
  }

  lemma {:induction false} CheckKeeps(l: Layout, white: bool, d: nat, d': nat)
    requires d <= d' && InCheckTo(l, white, d) != Unsettled
    ensures InCheckTo(l, white, d') == InCheckTo(l, white, d)
    decreases d, 2
  {
    if KingCell(l.board, white).Some? {
      AttackedKeeps(l, KingCell(l.board, white).value, !white, d, d');
    }
  }

  lemma {:induction false} AttackedKeeps(l: Layout, target: Cell, byWhite: bool, d: nat, d': nat)
    requires d <= d' && AttackedTo(l, target, byWhite, d) != Unsettled
    ensures AttackedTo(l, target, byWhite, d') == AttackedTo(l, target, byWhite, d)
    decreases d, 1
  {
    var hit := ScanFinds(l, target, byWhite, d);
    forall s: Cell | hit.None? || Index(s) < Index(hit.value)
      ensures !Stops(l, target, byWhite, d', s)
    {
      assert !Stops(l, target, byWhite, d, s);
      if Holds(l.board, s, byWhite) { GeometryKeeps(l, At(l.board, s), s, target, d, d'); }
    }
    if hit.Some? {
      GeometryKeeps(l, At(l.board, hit.value), hit.value, target, d, d');
      FirstDecides(l, target, byWhite, d', hit.value);
    } else {
      var hit' := ScanFinds(l, target, byWhite, d');
    }
  }

  lemma LegalKeeps(l: Layout, white: bool, f: Cell, t: Cell, d: nat, d': nat)
    requires d <= d' && LegalTo(l, white, f, t, d) != Unsettled
    ensures LegalTo(l, white, f, t, d') == LegalTo(l, white, f, t, d)
  {
    if Holds(l.board, f, white) {
      GeometryKeeps(l, At(l.board, f), f, t, d, d');
      if GeometryTo(l, At(l.board, f), f, t, d) == Yes { CheckKeeps(TryMove(l, f, t), white, d, d'); }
    }
  }
}
