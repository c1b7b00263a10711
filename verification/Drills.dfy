/** The opening drill as a state machine: attempts, right or wrong, and reveals of a book line. */
module Drills {
  import opened Squares
  import opened Rules
  import opened GameState
  import opened San

  datatype DrillState = Playing | Finished(outcome: real, mistakes: nat) | Invalid

  /** The view model's fields, and the calls to onComplete. */
  datatype Drill = Drill(
    game: State,
    ply: nat,
    mistakes: nat,
    state: DrillState,
    completed: seq<real>)

  function Begun(sans: seq<string>): Drill {
    Drill(START_STATE, 0, 0, if sans == [] then Invalid else Playing, [])
  }

  function Outcome(mistakes: nat): real {
    if mistakes == 0 then 1.0
    else
      var o := 1.0 - mistakes as real * 0.2;
      if o < 0.2 then 0.2 else o
  }

  // --------------------------------------------------------------------- the steps

  /** apply: a pawn on the last rank becomes what the line says, or a queen; a refused move is ignored. */
  ghost function AppliedTo(st: State, m: (Cell, Cell, Option<char>), d: nat): Option<State> {
    match MoveTo(st, m.0, m.1, d)
    case None => None
    case Some((st', Promotion)) => PromoteTo(st', m.1, if m.2.Some? then m.2.value else 'Q', d)
    case Some((st', _)) => Some(st')
  }

  /** advance, and finish at the end of the line */
  function Advanced(s: Drill, plies: nat): Drill {
    var s' := s.(ply := s.ply + 1);
    if s'.ply < plies then s'
    else s'.(state := Finished(Outcome(s.mistakes), s.mistakes), completed := s.completed + [Outcome(s.mistakes)])
  }

  ghost function BookMove(s: Drill, sans: seq<string>, d: nat): Option<(Cell, Cell, Option<char>)>
    requires s.ply < |sans|
  {
    Resolved(s.game, sans[s.ply], d)
  }

  ghost function PlayedTo(s: Drill, sans: seq<string>, m: (Cell, Cell, Option<char>), d: nat): Option<Drill> {
    match AppliedTo(s.game, m, d)
    case None => None
    case Some(st) => Some(Advanced(s.(game := st), |sans|))
  }

  predicate Active(s: Drill, sans: seq<string>) { s.state == Playing && s.ply < |sans| }

  function Missed(s: Drill): Drill { s.(mistakes := s.mistakes + 1) }

  /** attempt */
  ghost function AttemptTo(s: Drill, sans: seq<string>, f: Cell, t: Cell, d: nat): Option<Drill> {
    if !Active(s, sans) then Some(s)
    else if !Settles(s.game, Parse(sans[s.ply]), d) then None
    else
      match BookMove(s, sans, d)
      case None => Some(s.(state := Invalid))
      case Some(m) =>
        if f == m.0 && t == m.1 then PlayedTo(s, sans, m, d)
        else Some(Missed(s))
  }

  /** reveal */
  ghost function RevealTo(s: Drill, sans: seq<string>, d: nat): Option<Drill> {
    if !Active(s, sans) then Some(s)
    else if !Settles(s.game, Parse(sans[s.ply]), d) then None
    else
      match BookMove(s, sans, d)
      case None => Some(s)
      case Some(m) => PlayedTo(Missed(s), sans, m, d)
  }

  datatype Event = Attempt(from: Cell, to: Cell) | Reveal

  ghost function StepTo(s: Drill, sans: seq<string>, e: Event, d: nat): Option<Drill> {
    match e
    case Attempt(f, t) => AttemptTo(s, sans, f, t, d)
    case Reveal => RevealTo(s, sans, d)
  }

  ghost function StepsTo(sans: seq<string>, events: seq<Event>, d: nat): Option<Drill> {
    if events == [] then Some(Begun(sans))
    else
      match StepsTo(sans, events[..|events| - 1], d)
      case None => None
      case Some(s) => StepTo(s, sans, events[|events| - 1], d)
  }

  // ------------------------------------------------------------------ the theorems

  /** One book move, resolved and applied. */
  ghost function BookStep(st: State, san: string, d: nat): Option<State> {
    match Resolved(st, san, d)
    case None => None
    case Some(m) => AppliedTo(st, m, d)
  }

  /** The straight line: the first k book moves, each resolved and applied in turn. */
  ghost function LineTo(sans: seq<string>, k: nat, d: nat): Option<State>
    requires k <= |sans|
  {
    if k == 0 then Some(START_STATE)
    else
      match LineTo(sans, k - 1, d)
      case None => None
      case Some(st) => BookStep(st, sans[k - 1], d)
  }

  ghost predicate OnTheLine(s: Drill, sans: seq<string>, d: nat) {
    s.ply <= |sans| && LineTo(sans, s.ply, d) == Some(s.game)
  }

  predicate CountsAgree(s: Drill, plies: nat) {
    && (s.state == Playing ==> s.ply < plies)
    && (if s.state.Finished? then
          s.ply == plies && s.completed == [Outcome(s.mistakes)] && s.state == Finished(Outcome(s.mistakes), s.mistakes)
        else s.completed == [])
  }

  ghost predicate DrillOk(s: Drill, sans: seq<string>, d: nat) {
    OnTheLine(s, sans, d) && CountsAgree(s, |sans|)
  }

  lemma LineGrows(sans: seq<string>, k: nat, st: State, m: (Cell, Cell, Option<char>), st': State, d: nat)
    requires k < |sans| && LineTo(sans, k, d) == Some(st)
    requires Resolved(st, sans[k], d) == Some(m) && AppliedTo(st, m, d) == Some(st')
    ensures LineTo(sans, k + 1, d) == Some(st')
  {
  }

  lemma AdvancedCounts(s: Drill, plies: nat)
    requires s.state == Playing && s.ply < plies
    requires s.completed == []
    ensures CountsAgree(Advanced(s, plies), plies)
  {
  }

  lemma BookMoveKeeps(s: Drill, sans: seq<string>, m: (Cell, Cell, Option<char>), st: State, d: nat)
    requires Active(s, sans) && LineTo(sans, s.ply, d) == Some(s.game)
    requires s.completed == []
    requires BookMove(s, sans, d) == Some(m) && AppliedTo(s.game, m, d) == Some(st)
    ensures DrillOk(Advanced(s.(game := st), |sans|), sans, d)
  {
    LineGrows(sans, s.ply, s.game, m, st, d);
    AdvancedCounts(s.(game := st), |sans|);
    AdvancedSteps(s.(game := st), |sans|);
  }

  lemma AdvancedSteps(s: Drill, plies: nat)
    ensures Advanced(s, plies).ply == s.ply + 1 && Advanced(s, plies).game == s.game
  {
  }

  lemma AttemptKeeps(s: Drill, sans: seq<string>, f: Cell, t: Cell, d: nat)
    requires DrillOk(s, sans, d) && AttemptTo(s, sans, f, t, d).Some?
    ensures DrillOk(AttemptTo(s, sans, f, t, d).value, sans, d)
  {
    if Active(s, sans) && BookMove(s, sans, d).Some? {
      var m := BookMove(s, sans, d).value;
      if f == m.0 && t == m.1 { BookMoveKeeps(s, sans, m, AppliedTo(s.game, m, d).value, d); }
    }
  }

  lemma RevealKeeps(s: Drill, sans: seq<string>, d: nat)
    requires DrillOk(s, sans, d) && RevealTo(s, sans, d).Some?
    ensures DrillOk(RevealTo(s, sans, d).value, sans, d)
  {
    if Active(s, sans) && BookMove(s, sans, d).Some? {
      var m := BookMove(s, sans, d).value;
      BookMoveKeeps(Missed(s), sans, m, AppliedTo(s.game, m, d).value, d);
    }
  }

  lemma StepKeeps(s: Drill, sans: seq<string>, e: Event, d: nat)
    requires DrillOk(s, sans, d) && StepTo(s, sans, e, d).Some?
    ensures DrillOk(StepTo(s, sans, e, d).value, sans, d)
  {
    match e
    case Attempt(f, t) => AttemptKeeps(s, sans, f, t, d);
    case Reveal => RevealKeeps(s, sans, d);
  }

  // ------------------------------------------------------------- counting mistakes

  /** An attempt at another move than the book's. */
  ghost predicate IsWrong(s: Drill, sans: seq<string>, e: Event, d: nat) {
    && Active(s, sans) && e.Attempt? && BookMove(s, sans, d).Some?
    && (e.from, e.to) != (BookMove(s, sans, d).value.0, BookMove(s, sans, d).value.1)
  }

  /** A reveal that shows a move. */
  ghost predicate IsShown(s: Drill, sans: seq<string>, e: Event, d: nat) {
    Active(s, sans) && e.Reveal? && BookMove(s, sans, d).Some?
  }

  /** The wrong attempts among the events. */
  ghost function WrongAttempts(sans: seq<string>, events: seq<Event>, d: nat): nat
    requires StepsTo(sans, events, d).Some?
  {
    if events == [] then 0
    else
      var before := events[..|events| - 1];
      WrongAttempts(sans, before, d) + One(IsWrong(StepsTo(sans, before, d).value, sans, events[|events| - 1], d))
  }

  /** The reveals among the events. */
  ghost function Reveals(sans: seq<string>, events: seq<Event>, d: nat): nat
    requires StepsTo(sans, events, d).Some?
  {
    if events == [] then 0
    else
      var before := events[..|events| - 1];
      Reveals(sans, before, d) + One(IsShown(StepsTo(sans, before, d).value, sans, events[|events| - 1], d))
  }

  lemma StepCounts(s: Drill, sans: seq<string>, e: Event, d: nat)
    requires StepTo(s, sans, e, d).Some?
    ensures StepTo(s, sans, e, d).value.mistakes ==
      s.mistakes + One(IsWrong(s, sans, e, d)) + One(IsShown(s, sans, e, d))
  {
  }

  // ------------------------------------------------------------- what is really played

  /** Once the game is over, no move passes its test. */
  ghost predicate OverForGood(st: State, d: nat) {
    st.gameOver ==> forall f: Cell, t: Cell :: LegalTo(st.l, st.whiteToMove, f, t, d) == No
  }

  /** The game refuses the move that the text resolves to, which can only be a castle. */
  ghost predicate Refuses(st: State, san: string, d: nat) {
    match Resolved(st, san, d)
    case None => false
    case Some((f, t, _)) => LegalTo(st.l, st.whiteToMove, f, t, d) == No
  }

  /** The castles refused among the first k book moves. */
  ghost function RefusedCastles(sans: seq<string>, k: nat, d: nat): nat
    requires k <= |sans| && LineTo(sans, k, d).Some?
  {
    if k == 0 then 0
    else RefusedCastles(sans, k - 1, d) + One(Refuses(LineTo(sans, k - 1, d).value, sans[k - 1], d))
  }

  lemma OverKept(st: State, d: nat)
    requires !st.gameOver && CheckOver(st, d).Some?
    ensures OverForGood(CheckOver(st, d).value, d) && CheckOver(st, d).value.history == st.history
  {
    var hit := AnyFinds(st.l, st.whiteToMove, d);
    if hit.None? {
      forall f: Cell, t: Cell
        ensures LegalTo(st.l, st.whiteToMove, f, t, d) == No
      {
        assert !Counts(st.l, st.whiteToMove, d, f, t);
      }
    }
  }

  /** A legal book move makes one record; a refused one changes nothing. */
  lemma BookStepRecords(st: State, san: string, d: nat)
    requires OverForGood(st, d) && BookStep(st, san, d).Some?
    ensures var st' := BookStep(st, san, d).value;
      && OverForGood(st', d)
      && |st'.history| + One(Refuses(st, san, d)) == |st.history| + 1
      && (Refuses(st, san, d) ==> Parse(san).Castle? && st' == st)
  {
    ResolvedIsLegal(st, san, d);
    var (f, t, promotion) := Resolved(st, san, d).value;
    if LegalTo(st.l, st.whiteToMove, f, t, d) == Yes {
      var st1 := Execute(st, f, t);
      if IsPawn(At(st.l.board, f)) && LastRank(t) {
        var crowned := Crown(st1, t, if promotion.Some? then promotion.value else 'Q');
        OverKept(crowned.(whiteToMove := !crowned.whiteToMove), d);
      } else {
        OverKept(st1.(whiteToMove := !st1.whiteToMove), d);
      }
    }
  }

  /** The straight line has one record for every book move but the refused castles. */
  lemma {:induction false} LineRecords(sans: seq<string>, k: nat, d: nat)
    requires k <= |sans| && LineTo(sans, k, d).Some?
    ensures OverForGood(LineTo(sans, k, d).value, d)
    ensures |LineTo(sans, k, d).value.history| + RefusedCastles(sans, k, d) == k
  {
    if k > 0 {
      LineRecords(sans, k - 1, d);
      BookStepRecords(LineTo(sans, k - 1, d).value, sans[k - 1], d);
    }
  }

  /**
    Whatever is attempted and revealed, the position is that of the straight line at this
    ply, with one move made for every ply but for refused castles; mistakes are the wrong
    attempts and the reveals; and completion is reported once, at the end.
   */
  lemma {:induction false} DrillsFollowTheLine(sans: seq<string>, events: seq<Event>, d: nat)
    requires StepsTo(sans, events, d).Some?
    ensures DrillOk(StepsTo(sans, events, d).value, sans, d)
    ensures var s := StepsTo(sans, events, d).value;
      && s.mistakes == WrongAttempts(sans, events, d) + Reveals(sans, events, d)
      && |s.game.history| + RefusedCastles(sans, s.ply, d) == s.ply
  {
    if events != [] {
      var before := events[..|events| - 1];
      DrillsFollowTheLine(sans, before, d);
      StepKeeps(StepsTo(sans, before, d).value, sans, events[|events| - 1], d);
      StepCounts(StepsTo(sans, before, d).value, sans, events[|events| - 1], d);
    }
    LineRecords(sans, StepsTo(sans, events, d).value.ply, d);
  }

  /** Once finished or invalid, nothing changes any more. */
  lemma DoneIsDone(s: Drill, sans: seq<string>, e: Event, d: nat)
    requires s.state != Playing
    ensures StepTo(s, sans, e, d) == Some(s)
  {
  }

  lemma StepsMore(sans: seq<string>, events: seq<Event>, e: Event, d: nat)
    requires StepsTo(sans, events, d).Some?
    ensures StepsTo(sans, events + [e], d) == StepTo(StepsTo(sans, events, d).value, sans, e, d)
  {
    assert (events + [e])[..|events|] == events;
  }

  /** ... so whatever follows, a drill that is over stays as it was, and completion is never reported again. */
  lemma {:induction false} DoneForGood(sans: seq<string>, events: seq<Event>, more: seq<Event>, d: nat)
    requires StepsTo(sans, events, d).Some? && StepsTo(sans, events, d).value.state != Playing
    ensures StepsTo(sans, events + more, d) == StepsTo(sans, events, d)
  {
    if more == [] {
      assert events + more == events;
    } else {
      var before, e := more[..|more| - 1], more[|more| - 1];
      assert events + more == (events + before) + [e];
      DoneForGood(sans, events, before, d);
      StepsMore(sans, events + before, e, d);
      DoneIsDone(StepsTo(sans, events, d).value, sans, e, d);
    }
  }

  lemma OutcomeBounds(m: nat, n: nat)
    ensures 0.2 <= Outcome(m) <= 1.0
    ensures Outcome(m) == 1.0 <==> m == 0
    ensures m <= n ==> Outcome(n) <= Outcome(m)
    ensures m >= 4 ==> Outcome(m) == 0.2
  {
  }

  /** A fifth less for each mistake, and never below a fifth. */
  lemma OutcomeValues(m: nat)
    ensures Outcome(m) == if m == 0 then 1.0 else if m == 1 then 0.8 else if m == 2 then 0.6 else if m == 3 then 0.4 else 0.2
  {
  }

  /**
    When a step never returns: while the drill goes on, the book move's resolution does not,
    or the move is to be played and making it does not.
   */
  lemma StepHangsExactly(s: Drill, sans: seq<string>, e: Event, d: nat)
    ensures StepTo(s, sans, e, d).None? <==>
      && s.state == Playing && s.ply < |sans|
      && (|| !Settles(s.game, Parse(sans[s.ply]), d)
          || (match Resolved(s.game, sans[s.ply], d)
              case None => false
              case Some(m) => (e.Attempt? ==> e.from == m.0 && e.to == m.1) && AppliedTo(s.game, m, d).None?))
  {
  }

  /** An attempt, while the drill goes on, at a book move that does not resolve. */
  ghost predicate IsLost(s: Drill, sans: seq<string>, e: Event, d: nat) {
    Active(s, sans) && e.Attempt? && BookMove(s, sans, d).None?
  }

  /** After the first k events the next one was such an attempt. */
  ghost predicate LostAfter(sans: seq<string>, events: seq<Event>, d: nat, k: nat)
    requires k < |events|
  {
    StepsTo(sans, events[..k], d).Some? && IsLost(StepsTo(sans, events[..k], d).value, sans, events[k], d)
  }

  lemma LostEarlier(sans: seq<string>, events: seq<Event>, e: Event, d: nat, k: nat)
    requires k < |events|
    ensures LostAfter(sans, events + [e], d, k) <==> LostAfter(sans, events, d, k)
  {
    assert (events + [e])[..k] == events[..k];
  }

  lemma StepInvalid(s: Drill, sans: seq<string>, e: Event, d: nat)
    requires StepTo(s, sans, e, d).Some?
    ensures StepTo(s, sans, e, d).value.state == Invalid <==> s.state == Invalid || IsLost(s, sans, e, d)
  {
  }

  /** A drill is invalid exactly if its line is empty or some attempt met a book move that does not resolve. */
  lemma {:induction false} InvalidExactly(sans: seq<string>, events: seq<Event>, d: nat)
    requires StepsTo(sans, events, d).Some?
    ensures StepsTo(sans, events, d).value.state == Invalid <==>
      sans == [] || exists k: nat :: k < |events| && LostAfter(sans, events, d, k)
  {
    if events != [] {
      var before, e := events[..|events| - 1], events[|events| - 1];
      assert events == before + [e];
      InvalidExactly(sans, before, d);
      StepInvalid(StepsTo(sans, before, d).value, sans, e, d);
      if k: nat :| k < |before| && LostAfter(sans, before, d, k) { LostEarlier(sans, before, e, d, k); }
      if IsLost(StepsTo(sans, before, d).value, sans, e, d) { assert LostAfter(sans, events, d, |before|); }
      if k: nat :| k < |events| && LostAfter(sans, events, d, k) {
        if k < |before| { LostEarlier(sans, before, e, d, k); }
      }
    }
  }

  /** A book pawn that reaches the last rank is crowned with the line's letter, or as a queen; other moves are as played. */
  lemma BookMovesCrown(st: State, f: Cell, t: Cell, promotion: Option<char>, d: nat)
    requires AppliedTo(st, (f, t, promotion), d).Some?
    ensures var st' := AppliedTo(st, (f, t, promotion), d).value;
      if MoveTo(st, f, t, d).value.1 == Promotion then
        st'.l.board == Put(ExecutedBoard(st.l.board, f, t), t,
          if st.whiteToMove then ToUpper(if promotion.None? then 'Q' else promotion.value)
          else ToLower(if promotion.None? then 'q' else promotion.value))
      else st' == MoveTo(st, f, t, d).value.0
  {
    if MoveTo(st, f, t, d).value.1 == Promotion { PromotedIsWhites(st, f, t, d); }
  }

  lemma PromotedIsWhites(st: State, f: Cell, t: Cell, d: nat)
    requires MoveTo(st, f, t, d).Some? && MoveTo(st, f, t, d).value.1 == Promotion
    ensures MoveTo(st, f, t, d).value.0 == Execute(st, f, t)
    ensures At(Execute(st, f, t).l.board, t) == (if st.whiteToMove then 'P' else 'p')
  {
  }

  // ------------------------------------------------------------- a refused castle

  lemma StartCastleIsRefused(st: State, d: nat)
    requires st == START_STATE
    ensures Resolved(st, "O-O", d) == Some((HomeOf(true), Square(7, 6), None)) && Refuses(st, "O-O", d)
    ensures BookStep(st, "O-O", d) == Some(st) && Parse("O-O").Castle?
  {
    assert "O-O" + "" == "O-O";
    CastlingResolves(st, "O-O", true, "", d);
    assert At(st.l.board, HomeOf(true)) == 'K' && At(st.l.board, Square(7, 6)) == 'N';
    assert Barred(st.l.board, 'K', HomeOf(true), Square(7, 6));
  }

  /** A line that begins with castling: the attempt completes the drill, and no move is made. */
  lemma RefusedCastleCountsAsPlayed(sans: seq<string>, e: Event, d: nat)
    requires sans == ["O-O"] && e == Attempt(Square(7, 4), Square(7, 6))
    ensures StepTo(Begun(sans), sans, e, d) == Some(Drill(START_STATE, 1, 0, Finished(1.0, 0), [1.0]))
  {
    StartCastleIsRefused(START_STATE, d);
    assert [] + [1.0] == [1.0];
  }
}
