/** The numbered movetext of an exported game, and the tokeniser for stored opening lines. */
module Movetext {
  import opened Squares
  import opened GameState
  import opened Text
  import opened Replay

  // ------------------------------------------------------------------- printing

  /** The part of the list from index i on, White's moves numbered, joined by spaces. */
  function Numbered(moves: seq<string>, i: nat): seq<string> {
    if moves == [] then []
    else
      [if i % 2 == 0 then Decimal(i / 2 + 1) + ". " + moves[0] else moves[0]] + Numbered(moves[1..], i + 1)
  }

  /** The movetext of exportPGN */
  function MovetextOf(moves: seq<string>): string { Join(Numbered(moves, 0), ' ') }

  // ----------------------------------------------------------------- tokenising

  predicate IsGap(c: char) { c == ' ' || c == '\n' || c == '\t' }

  /** The maximal pieces without gaps; `word` is the piece under way. */
  function Words(s: string, word: string): seq<string> {
    if s == "" then (if word == "" then [] else [word])
    else if IsGap(s[0]) then (if word == "" then [] else [word]) + Words(s[1..], "")
    else Words(s[1..], word + [s[0]])
  }

  function SkipDigits(s: string): string { if s != "" && IsDigit(s[0]) then SkipDigits(s[1..]) else s }

  function SkipDots(s: string): string { if s != "" && s[0] == '.' then SkipDots(s[1..]) else s }

  /** Strips a leading move number: digits, then at least one dot. */
  function StripNumber(s: string): string {
    var rest := SkipDigits(s);
    if s != "" && IsDigit(s[0]) && rest != "" && rest[0] == '.' then SkipDots(rest) else s
  }

  const RESULT_MARKERS: set<string> := {"1-0", "0-1", "1/2-1/2", "\U{bd}-\U{bd}", "*"}

  const GLYPHS: seq<(char, string)> := [
    ('\U{2654}', "K"), ('\U{2655}', "Q"), ('\U{2656}', "R"), ('\U{2657}', "B"), ('\U{2658}', "N"), ('\U{2659}', ""),
    ('\U{265A}', "K"), ('\U{265B}', "Q"), ('\U{265C}', "R"), ('\U{265D}', "B"), ('\U{265E}', "N"), ('\U{265F}', "")]

  function Replaced(s: string, glyph: char, text: string): string {
    if s == "" then "" else (if s[0] == glyph then text else [s[0]]) + Replaced(s[1..], glyph, text)
  }

  /** The replacements of the table, one after the other. */
  function ReplacedAll(s: string, table: seq<(char, string)>): string
    decreases |table|, s
  {
    if table == [] then s else ReplacedAll(Replaced(s, table[0].0, table[0].1), table[1..])
  }

  method NormalizeLine(line: string) returns (s: string)
    ensures s == ReplacedAll(line, GLYPHS)
  {
    s := line;
    for i := 0 to |GLYPHS|
      invariant ReplacedAll(s, GLYPHS[i..]) == ReplacedAll(line, GLYPHS)
    {
      s := Replaced(s, GLYPHS[i].0, GLYPHS[i].1);
      assert GLYPHS[i..][1..] == GLYPHS[i + 1..];
    }
  }

  /** The tokens that remain moves once numbers are stripped and results dropped. */
  function Kept(words: seq<string>): seq<string> {
    if words == [] then []
    else
      var t := Trim(StripNumber(words[0]));
      (if t == "" || t in RESULT_MARKERS then [] else [t]) + Kept(words[1..])
  }

  /** OpeningLine.sanMoves */
  function SanMoves(line: string): seq<string> { Kept(Words(ReplacedAll(line, GLYPHS), "")) }

  // ----------------------------------------------------------------- round trip

  /** A token that tokenising leaves alone: a move in UCI or in SAN is one. */
  predicate IsMoveToken(t: string) {
    t != "" && t != "*" && t[0] != '.' && !('0' <= t[0] <= '9') && forall c :: c in t ==> '!' <= c <= '~'
  }

  lemma UciIsToken(f: Cell, t: Cell, promo: Option<char>)
    requires promo.Some? ==> '!' <= ToLower(promo.value) <= '~'
    ensures IsMoveToken(Uci(f, t, promo))
  {
  }

  predicate IsAscii(s: string) {
    forall i :: 0 <= i < |s| ==> s[i] <= '~'
  }

  lemma {:induction false} NoGlyphs(s: string, table: seq<(char, string)>)
    requires forall e :: e in table ==> e.0 !in s
    ensures ReplacedAll(s, table) == s
  {
    if table != [] {
      NoGlyph(s, table[0].0, table[0].1);
      NoGlyphs(s, table[1..]);
    }
  }

  lemma {:induction false} NoGlyph(s: string, glyph: char, text: string)
    requires glyph !in s
    ensures Replaced(s, glyph, text) == s
  {
    if s != "" { NoGlyph(s[1..], glyph, text); }
  }

  predicate IsWord(w: string) { w != "" && forall c :: c in w ==> !IsGap(c) }

  lemma {:induction false} WordRuns(w: string, rest: string, word: string)
    requires forall c :: c in w ==> !IsGap(c)
    ensures Words(w + rest, word) == Words(rest, word + w)
  {
    if w == "" {
      assert w + rest == rest && word + w == word;
    } else {
      WordRuns(w[1..], rest, word + [w[0]]);
      assert (w + rest)[1..] == w[1..] + rest;
      assert word + [w[0]] + w[1..] == word + w;
    }
  }

  lemma WordEnds(w: string, rest: string)
    requires IsWord(w)
    ensures Words(w + " " + rest, "") == [w] + Words(rest, "")
    ensures Words(w, "") == [w]
  {
    WordRuns(w, " " + rest, "");
    WordRuns(w, "", "");
    assert w + " " + rest == w + (" " + rest);
    assert (" " + rest)[1..] == rest;
    assert "" + w == w && w + "" == w;
  }

  lemma {:induction false} SkipsDigits(s: string, rest: string)
    requires forall i :: 0 <= i < |s| ==> IsDigit(s[i])
    requires rest == "" || !IsDigit(rest[0])
    ensures SkipDigits(s + rest) == rest
  {
    if s == "" {
      assert s + rest == rest;
    } else {
      SkipsDigits(s[1..], rest);
      assert (s + rest)[1..] == s[1..] + rest;
    }
  }

  function Points(n: nat): string { if n == 0 then "" else "." + Points(n - 1) }

  lemma {:induction false} SkipsPoints(n: nat, rest: string)
    requires rest == "" || rest[0] != '.'
    ensures SkipDots(Points(n) + rest) == rest
  {
    if n == 0 {
      assert "" + rest == rest;
    } else {
      SkipsPoints(n - 1, rest);
      assert Points(n) + rest == "." + (Points(n - 1) + rest);
      assert (Points(n) + rest)[1..] == Points(n - 1) + rest;
    }
  }

  /** A move number with its points is stripped, also from a move glued to it; without a point nothing is. */
  lemma NumberIsStripped(n: nat, points: nat, t: string)
    requires t == "" || (t[0] != '.' && !('0' <= t[0] <= '9'))
    ensures StripNumber(Decimal(n) + Points(points) + t) == if points > 0 then t else Decimal(n) + t
  {
    var rest := Points(points) + t;
    assert Decimal(n) + Points(points) + t == Decimal(n) + rest;
    assert points > 0 ==> rest[0] == '.';
    assert points == 0 ==> rest == t;
    SkipsDigits(Decimal(n), rest);
    SkipsPoints(points, t);
  }

  /** ... so a move counts with or without its number, and a number alone is no move. */
  lemma NumberIsDropped(n: nat, points: nat, t: string, rest: seq<string>)
    requires points > 0 && (t == "" || IsMoveToken(t))
    ensures Kept([Decimal(n) + Points(points) + t] + rest) == (if t == "" then [] else [t]) + Kept(rest)
  {
    NumberIsStripped(n, points, t);
    assert ([Decimal(n) + Points(points) + t] + rest)[1..] == rest;
    if t != "" {
      MoveIsKept(t, rest);
      assert ([t] + rest)[1..] == rest;
    }
  }

  lemma NumberIsWord(n: nat)
    ensures IsWord(Decimal(n) + ".") && Decimal(n) + "." == Decimal(n) + Points(1) + ""
  {
    assert Points(1) == "." + Points(0);
  }

  /** The five ways in which a game's result is written are no moves, castling with zeros is. */
  lemma ResultsAreDropped(t: string, rest: seq<string>)
    ensures t in ["1-0", "0-1", "1/2-1/2", "\U{bd}-\U{bd}", "*"] ==> Kept([t] + rest) == Kept(rest)
    ensures t in ["0-0", "0-0-0"] ==> Kept([t] + rest) == [t] + Kept(rest)
  {
    assert ([t] + rest)[1..] == rest;
    if t in ["1-0", "0-1", "1/2-1/2", "\U{bd}-\U{bd}", "*", "0-0", "0-0-0"] {
      ResultsAreWhole(t);
      assert !IsBlank(t[0]) && !IsBlank(t[|t| - 1]) && Trim(t) == t;
      assert "0-0" !in RESULT_MARKERS && "0-0-0" !in RESULT_MARKERS;
    }
  }

  lemma ResultsAreWhole(t: string)
    requires t in ["1-0", "0-1", "1/2-1/2", "\U{bd}-\U{bd}", "*", "0-0", "0-0-0"]
    ensures StripNumber(t) == t
  {
    if IsDigit(t[0]) {
      assert !IsDigit(t[1]) && t[1] != '.';
      assert SkipDigits(t) == SkipDigits(t[1..]) == t[1..];
    }
  }

  /** Line ends and tabs separate like spaces. */
  function Spaced(s: string): string {
    if s == "" then "" else [if s[0] in "\n\t" then ' ' else s[0]] + Spaced(s[1..])
  }

  lemma {:induction false} GapsAreAlike(s: string, word: string)
    ensures Words(Spaced(s), word) == Words(s, word)
  {
    if s != "" {
      GapsAreAlike(s[1..], "");
      GapsAreAlike(s[1..], word + [s[0]]);
      assert Spaced(s)[1..] == Spaced(s[1..]);
    }
  }

  /** Spaces in a row count as one, and none at the ends counts. */
  lemma GapsMerge(s: string, word: string)
    ensures Words("  " + s, word) == Words(" " + s, word) == (if word == "" then [] else [word]) + Words(s, "")
  {
    assert ("  " + s)[1..] == " " + s && (" " + s)[1..] == s;
  }

  lemma MoveIsKept(t: string, rest: seq<string>)
    requires IsMoveToken(t)
    ensures IsWord(t) && Kept([t] + rest) == [t] + Kept(rest)
  {
    assert ([t] + rest)[1..] == rest;
    assert forall c :: c in t ==> !IsBlank(c);
    assert t[0] in t && t[|t| - 1] in t;
    assert Trim(t) == t;
    assert "1-0"[0] == '1' && "0-1"[0] == '0' && "1/2-1/2"[0] == '1' && "\U{bd}-\U{bd}"[0] > '~';
  }

  /** One item of the list, followed by the rest of the text, is read as its move. */
  lemma ItemIsRead(t: string, i: nat, rest: string)
    requires IsMoveToken(t)
    ensures var item := if i % 2 == 0 then Decimal(i / 2 + 1) + ". " + t else t;
      && Kept(Words(item + " " + rest, "")) == [t] + Kept(Words(rest, ""))
      && Kept(Words(item, "")) == [t]
  {
    MoveIsKept(t, Words(rest, ""));
    MoveIsKept(t, []);
    WordEnds(t, rest);
    assert Kept([]) == [];
    assert [t] + [] == [t];
    if i % 2 == 0 {
      var number := Decimal(i / 2 + 1) + ".";
      NumberIsWord(i / 2 + 1);
      NumberIsDropped(i / 2 + 1, 1, "", Words(t + " " + rest, ""));
      NumberIsDropped(i / 2 + 1, 1, "", Words(t, ""));
      WordEnds(number, t + " " + rest);
      WordEnds(number, t);
      assert Decimal(i / 2 + 1) + ". " + t + " " + rest == number + " " + (t + " " + rest);
      assert Decimal(i / 2 + 1) + ". " + t == number + " " + t;
    }
  }

  lemma {:induction false} NumberedIsRead(moves: seq<string>, i: nat)
    requires forall t :: t in moves ==> IsMoveToken(t)
    ensures Kept(Words(Join(Numbered(moves, i), ' '), "")) == moves
  {
    if moves != [] {
      var items := Numbered(moves, i);
      assert items[1..] == Numbered(moves[1..], i + 1);
      NumberedIsRead(moves[1..], i + 1);
      ItemIsRead(moves[0], i, Join(items[1..], ' '));
      if |moves| > 1 { assert Join(items, ' ') == items[0] + " " + Join(items[1..], ' '); }
    }
  }

  lemma {:induction false} JoinIsAscii(parts: seq<string>)
    requires forall p :: p in parts ==> IsAscii(p)
    ensures IsAscii(Join(parts, ' '))
  {
    if parts != [] {
      assert IsAscii(parts[0]);
      JoinIsAscii(parts[1..]);
    }
  }

  lemma {:induction false} NumberedIsAscii(moves: seq<string>, i: nat)
    requires forall t :: t in moves ==> IsMoveToken(t)
    ensures forall p :: p in Numbered(moves, i) ==> IsAscii(p)
  {
    if moves != [] {
      NumberedIsAscii(moves[1..], i + 1);
      assert IsMoveToken(moves[0]);
      forall k | 0 <= k < |moves[0]|
        ensures moves[0][k] <= '~'
      {
        assert moves[0][k] in moves[0];
      }
      assert IsAscii(Decimal(i / 2 + 1) + ". ");
    }
  }

  /** What is printed: the moves in order, and before each of White's its number. */
  lemma {:induction false} NumberedMeans(moves: seq<string>, i: nat, k: nat)
    requires k < |moves|
    ensures |Numbered(moves, i)| == |moves|
    ensures (i + k) % 2 == 1 ==> Numbered(moves, i)[k] == moves[k]
    ensures (i + k) % 2 == 0 ==> Numbered(moves, i)[k] == Decimal((i + k) / 2 + 1) + ". " + moves[k]
    decreases k, |moves|
  {
    if k > 0 {
      NumberedMeans(moves[1..], i + 1, k - 1);
      assert moves[1..][k - 1] == moves[k];
    } else if |moves| > 1 {
      NumberedLength(moves[1..], i + 1);
    }
  }

  lemma {:induction false} NumberedLength(moves: seq<string>, i: nat)
    ensures |Numbered(moves, i)| == |moves|
  {
    if moves != [] { NumberedLength(moves[1..], i + 1); }
  }

  /** Round trip: tokenising the printed movetext gives back exactly the moves, however many. */
  lemma MovetextIsRead(moves: seq<string>)
    requires forall t :: t in moves ==> IsMoveToken(t)
    ensures SanMoves(MovetextOf(moves)) == moves
  {
    NumberedIsAscii(moves, 0);
    JoinIsAscii(Numbered(moves, 0));
    AsciiHasNoGlyphs(MovetextOf(moves));
    NoGlyphs(MovetextOf(moves), GLYPHS);
    NumberedIsRead(moves, 0);
  }

  lemma AsciiHasNoGlyphs(s: string)
    requires IsAscii(s)
    ensures forall e :: e in GLYPHS ==> e.0 !in s
  {
    forall e | e in GLYPHS
      ensures e.0 !in s
    {
      assert e.0 > '~';
    }
  }

  // ----------------------------------------------------------------- figurines

  /** The letter for a figurine of either colour; a pawn has none. */
  function Plain(c: char): string {
    if c == '\U{2654}' || c == '\U{265A}' then "K"
    else if c == '\U{2655}' || c == '\U{265B}' then "Q"
    else if c == '\U{2656}' || c == '\U{265C}' then "R"
    else if c == '\U{2657}' || c == '\U{265D}' then "B"
    else if c == '\U{2658}' || c == '\U{265E}' then "N"
    else if c == '\U{2659}' || c == '\U{265F}' then ""
    else [c]
  }

  function PlainLine(s: string): string { if s == "" then "" else Plain(s[0]) + PlainLine(s[1..]) }

  lemma ReplacedStep(s: string, glyph: char, text: string)
    requires s != ""
    ensures Replaced(s, glyph, text) == (if s[0] == glyph then text else [s[0]]) + Replaced(s[1..], glyph, text)
  {
  }

  lemma {:induction false} ReplacedConcat(a: string, b: string, glyph: char, text: string)
    ensures Replaced(a + b, glyph, text) == Replaced(a, glyph, text) + Replaced(b, glyph, text)
  {
    if a == "" {
      assert a + b == b;
    } else {
      ReplacedConcat(a[1..], b, glyph, text);
      ReplacedStep(a, glyph, text);
      ReplacedStep(a + b, glyph, text);
      assert (a + b)[1..] == a[1..] + b && (a + b)[0] == a[0];
      HeadConcat(if a[0] == glyph then text else [a[0]], Replaced(a[1..], glyph, text), Replaced(b, glyph, text));
    }
  }

  lemma HeadConcat(head: string, x: string, y: string)
    ensures head + (x + y) == head + x + y
  {
  }

  lemma {:induction false} AllReplacedConcat(a: string, b: string, table: seq<(char, string)>)
    ensures ReplacedAll(a + b, table) == ReplacedAll(a, table) + ReplacedAll(b, table)
    decreases |table|
  {
    if table != [] {
      ReplacedConcat(a, b, table[0].0, table[0].1);
      AllReplacedConcat(Replaced(a, table[0].0, table[0].1), Replaced(b, table[0].0, table[0].1), table[1..]);
    }
  }

  /** No text of the table holds a figurine that is replaced after it. */
  predicate OnePass(table: seq<(char, string)>) {
    forall i, j :: 0 <= i < j < |table| ==> table[j].0 !in table[i].1
  }

  /** What the table makes of one character: the text of its first row for it, or the character itself. */
  lemma {:induction false} OneReplaced(c: char, table: seq<(char, string)>, i: nat)
    requires OnePass(table) && i <= |table|
    requires i < |table| ==> table[i].0 == c
    requires forall j :: 0 <= j < i ==> table[j].0 != c
    ensures ReplacedAll([c], table) == if i < |table| then table[i].1 else [c]
  {
    assert [c][1..] == "" && [c] + "" == [c];
    if table != [] {
      if i == 0 {
        assert table[0].1 + "" == table[0].1;
        assert Replaced([c], table[0].0, table[0].1) == table[0].1;
        NoGlyphs(table[0].1, table[1..]);
      } else {
        assert Replaced([c], table[0].0, table[0].1) == [c];
        OneReplaced(c, table[1..], i - 1);
      }
    }
  }

  lemma GlyphsInOrder(i: nat)
    requires i < 12
    ensures |GLYPHS| == 12 && GLYPHS[i].0 as int == 0x2654 + i && GLYPHS[i].1 == Plain(GLYPHS[i].0)
    ensures IsAscii(GLYPHS[i].1)
  {
  }

  lemma OnePlain(c: char)
    ensures ReplacedAll([c], GLYPHS) == Plain(c)
  {
    forall i: nat | i < 12
      ensures GLYPHS[i].0 as int == 0x2654 + i && IsAscii(GLYPHS[i].1)
    {
      GlyphsInOrder(i);
    }
    if 0x2654 <= c as int < 0x2660 {
      GlyphsInOrder(c as int - 0x2654);
      OneReplaced(c, GLYPHS, c as int - 0x2654);
    } else {
      OneReplaced(c, GLYPHS, |GLYPHS|);
    }
  }

  /** The replacements, one after the other, make of a line what each figurine stands for. */
  lemma {:induction false} LineIsPlain(s: string)
    ensures ReplacedAll(s, GLYPHS) == PlainLine(s)
  {
    if s == "" {
      NoGlyphs(s, GLYPHS);
    } else {
      LineIsPlain(s[1..]);
      assert s == [s[0]] + s[1..];
      AllReplacedConcat([s[0]], s[1..], GLYPHS);
      OnePlain(s[0]);
    }
  }
}
