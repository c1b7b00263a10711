/** The string operations that the printers and parsers share. */
module Text {

  predicate IsDigit(c: char) { '0' <= c <= '9' }

  function DigitOf(n: nat): (c: char)
    requires n < 10
    ensures IsDigit(c) && ValueOf(c) == n
  {
    ('0' as int + n) as char
  }

  function ValueOf(c: char): nat
    requires IsDigit(c)
  {
    c as int - '0' as int
  }

  function Decimal(n: nat): (s: string)
    ensures s != "" && forall i :: 0 <= i < |s| ==> IsDigit(s[i])
  {
    if n < 10 then [DigitOf(n)] else Decimal(n / 10) + [DigitOf(n % 10)]
  }

  /** The number that a text of decimal digits stands for. */
  function NumberOf(s: string): int {
    if s == "" then 0 else 10 * NumberOf(s[..|s| - 1]) + (s[|s| - 1] as int - '0' as int)
  }

  /** A number is printed as the decimal text that stands for it, without leading zeros. */
  lemma {:induction false} DecimalMeans(n: nat)
    ensures forall c :: c in Decimal(n) ==> '0' <= c <= '9'
    ensures NumberOf(Decimal(n)) == n && (Decimal(n)[0] == '0' ==> n == 0 && |Decimal(n)| == 1)
  {
    var s := Decimal(n);
    if n < 10 {
      assert s[..0] == "";
    } else {
      DecimalMeans(n / 10);
      assert s[..|s| - 1] == Decimal(n / 10);
    }
  }

  /** Split at every sep, empty pieces kept. */
  function Split(s: string, sep: char): (parts: seq<string>)
    ensures parts != []
  {
    if s == "" then [""]
    else
      var rest := Split(s[1..], sep);
      if s[0] == sep then [""] + rest else [[s[0]] + rest[0]] + rest[1..]
  }

  function Join(parts: seq<string>, sep: char): string {
    if parts == [] then ""
    else if |parts| == 1 then parts[0]
    else parts[0] + [sep] + Join(parts[1..], sep)
  }

  lemma JoinMore(p: string, rest: seq<string>, sep: char)
    requires rest != []
    ensures Join([p] + rest, sep) == p + [sep] + Join(rest, sep)
  {
    assert ([p] + rest)[1..] == rest;
  }

  lemma JoinSix(a: string, b: string, c: string, d: string, e: string, f: string)
    ensures Join([a, b, c, d, e, f], ' ') == a + " " + b + " " + c + " " + d + " " + e + " " + f
  {
    JoinMore(e, [f], ' ');
    JoinMore(d, [e] + [f], ' ');
    JoinMore(c, [d] + ([e] + [f]), ' ');
    JoinMore(b, [c] + ([d] + ([e] + [f])), ' ');
    JoinMore(a, [b] + ([c] + ([d] + ([e] + [f]))), ' ');
    assert [a, b, c, d, e, f] == [a] + ([b] + ([c] + ([d] + ([e] + [f]))));
    assert [' '] == " ";
  }

  lemma {:induction false} SplitWhole(p: string, sep: char)
    requires sep !in p
    ensures Split(p, sep) == [p]
  {
    if p != "" {
      SplitWhole(p[1..], sep);
      assert p == [p[0]] + p[1..];
    }
  }

  lemma {:induction false} SplitHead(p: string, rest: string, sep: char)
    requires sep !in p
    ensures Split(p + [sep] + rest, sep) == [p] + Split(rest, sep)
  {
    var s := p + [sep] + rest;
    if p == "" {
      assert s[1..] == rest;
    } else {
      SplitHead(p[1..], rest, sep);
      assert s[1..] == p[1..] + [sep] + rest;
      assert p == [p[0]] + p[1..];
      assert Split(s[1..], sep)[1..] == Split(rest, sep);
    }
  }

  /** Splitting undoes joining. */
  lemma {:induction false} SplitJoin(parts: seq<string>, sep: char)
    requires parts != [] && forall p :: p in parts ==> sep !in p
    ensures Split(Join(parts, sep), sep) == parts
  {
    if |parts| == 1 {
      SplitWhole(parts[0], sep);
    } else {
      SplitJoin(parts[1..], sep);
      SplitHead(parts[0], Join(parts[1..], sep), sep);
    }
  }

  predicate IsBlank(c: char) { c == ' ' || c == '\t' }

  function TrimLeft(s: string): string {
    if s != "" && IsBlank(s[0]) then TrimLeft(s[1..]) else s
  }

  function TrimRight(s: string): string {
    if s != "" && IsBlank(s[|s| - 1]) then TrimRight(s[..|s| - 1]) else s
  }

  function Trim(s: string): string { TrimRight(TrimLeft(s)) }

  // ---------------------------------------------- stripping white space and newlines

  predicate IsSpace(c: char) { c == ' ' || '\t' <= c <= '\r' }

  function StripLeft(s: string): string { if s != "" && IsSpace(s[0]) then StripLeft(s[1..]) else s }

  function StripRight(s: string): string {
    if s != "" && IsSpace(s[|s| - 1]) then StripRight(s[..|s| - 1]) else s
  }

  function Strip(s: string): string { StripRight(StripLeft(s)) }

  predicate AllIn(s: string, allowed: string) { forall c :: c in s ==> c in allowed }

  /** Stripping takes off white space at the two ends, all of it and nothing else. */
  lemma StripMeans(s: string) returns (a: string, b: string)
    ensures s == a + Strip(s) + b && AllIn(a + b, " \t\n\U{b}\U{c}\r")
    ensures Strip(s) != "" ==>
      Strip(s)[0] !in " \t\n\U{b}\U{c}\r" && Strip(s)[|Strip(s)| - 1] !in " \t\n\U{b}\U{c}\r"
  {
    a := StripsLeft(s);
    b := StripsRight(StripLeft(s));
    assert Strip(s) != "" ==> Strip(s)[0] == StripLeft(s)[0];
  }

  lemma {:induction false} StripsLeft(s: string) returns (a: string)
    ensures s == a + StripLeft(s) && AllIn(a, " \t\n\U{b}\U{c}\r")
    ensures StripLeft(s) != "" ==> StripLeft(s)[0] !in " \t\n\U{b}\U{c}\r"
  {
    a := "";
    if s != "" && IsSpace(s[0]) {
      var a' := StripsLeft(s[1..]);
      a := [s[0]] + a';
    }
  }

  lemma {:induction false} StripsRight(s: string) returns (b: string)
    ensures s == StripRight(s) + b && AllIn(b, " \t\n\U{b}\U{c}\r")
    ensures StripRight(s) != "" ==> StripRight(s)[|StripRight(s)| - 1] !in " \t\n\U{b}\U{c}\r"
  {
    b := "";
    if s != "" && IsSpace(s[|s| - 1]) {
      var b' := StripsRight(s[..|s| - 1]);
      b := b' + [s[|s| - 1]];
    }
  }
}
