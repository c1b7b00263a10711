/** The drill's view model: an object that plays book moves on its own game. */
module OpeningDrill {
  import opened Squares
  import opened GameState
  import opened Drills
  import opened ChessGameClass
  import SANResolver
  import Movetext

  class OpeningDrillViewModel {
    const game: ChessGame
    const sans: seq<string>
    /** How deeply the attack test may nest in this drill. */
    ghost const d: nat

    var ply: nat
    var mistakes: nat
    var state: DrillState

    ghost var completed: seq<real>

    ghost function Now(): Drill
      reads this, game
    {
      Drill(game.Now(), ply, mistakes, state, completed)
    }

    constructor (line: string, ghost depth: nat)
      ensures fresh(game) && d == depth && sans == Movetext.SanMoves(line)
      ensures Now() == Begun(sans)
    {
      game := new ChessGame();
      d := depth;
      var moves := Movetext.SanMoves(line);
      sans := moves;
      ply, mistakes := 0, 0;
      state := if moves == [] then Invalid else Playing;
      completed := [];
    }

    method Attempt(f: Cell, t: Cell)
      requires AttemptTo(Now(), sans, f, t, d).Some?
      modifies this, game
      ensures Some(Now()) == AttemptTo(old(Now()), sans, f, t, d)
    {
      if state != Playing || ply >= |sans| { return; }
      var expected := SANResolver.Resolve(sans[ply], game, d);
      if expected.None? {
        state := Invalid;
        return;
      }
      if f == expected.value.0 && t == expected.value.1 {
        PlayBook(expected.value);
      } else {
        mistakes := mistakes + 1;
      }
    }

    method Reveal()
      requires RevealTo(Now(), sans, d).Some?
      modifies this, game
      ensures Some(Now()) == RevealTo(old(Now()), sans, d)
    {
      if state != Playing || ply >= |sans| { return; }
      var expected := SANResolver.Resolve(sans[ply], game, d);
      if expected.None? { return; }
      PlayMissed(expected.value);
    }

    /** The book move counted as a mistake, and played. */
    method PlayMissed(m: (Cell, Cell, Option<char>))
      requires PlayedTo(Missed(Now()), sans, m, d).Some?
      modifies this, game
      ensures Some(Now()) == PlayedTo(Missed(old(Now())), sans, m, d)
    {
      mistakes := mistakes + 1;
      assert Now() == Missed(old(Now()));
      PlayBook(m);
    }

    /** apply, then advance */
    method PlayBook(m: (Cell, Cell, Option<char>))
      requires PlayedTo(Now(), sans, m, d).Some?
      modifies this, game
      ensures Some(Now()) == PlayedTo(old(Now()), sans, m, d)
    {
      Apply(m);
      Advance();
    }

    method Advance()
      modifies this
      ensures Now() == Advanced(old(Now()), |sans|)
    {
      ply := ply + 1;
      if ply >= |sans| { Finish(); }
    }

    method Apply(m: (Cell, Cell, Option<char>))
      requires AppliedTo(game.Now(), m, d).Some?
      modifies game
      ensures AppliedTo(old(game.Now()), m, d) == Some(game.Now())
    {
      var result := game.Move(m.0, m.1, d);
      if result == Promotion {
        game.Promote(m.1, if m.2.Some? then m.2.value else 'Q', d);
      }
    }

    method Finish()
      modifies this`state, this`completed
      ensures state == Finished(Outcome(mistakes), mistakes)
      ensures completed == old(completed) + [Outcome(mistakes)]
    {
      var outcome := 1.0;
      if mistakes != 0 {
        outcome := 1.0 - mistakes as real * 0.2;
        if outcome < 0.2 { outcome := 0.2; }
      }
      state := Finished(outcome, mistakes);
      completed := completed + [outcome];
    }
  }
}
