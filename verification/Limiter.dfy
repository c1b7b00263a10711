/** The rate-limit key: the client address read from right to left through trusted proxies. */
module Limiter {
  import opened Squares
  import opened Text

  /** An IP address of either family, and a network as a prefix of its bits. */
  datatype Address = Address(v6: bool, value: nat)

  datatype Network = Network(v6: bool, prefix: nat, hostSize: nat) {
    predicate Contains(a: Address) {
      a.v6 == v6 && hostSize > 0 && a.value / hostSize == prefix
    }
  }

  /** The non-empty stripped pieces, in order. */
  function Stripped(pieces: seq<string>): seq<string> {
    if pieces == [] then []
    else
      var before := Stripped(pieces[..|pieces| - 1]);
      var t := Strip(pieces[|pieces| - 1]);
      if t == "" then before else before + [t]
  }

  function Tokens(header: string): seq<string> { Stripped(Split(header, ',')) }

  /** The entries that parse, in order. */
  function Parsed(tokens: seq<string>, parse: string -> Option<Network>): seq<Network> {
    if tokens == [] then []
    else
      var before := Parsed(tokens[..|tokens| - 1], parse);
      match parse(tokens[|tokens| - 1])
      case None => before
      case Some(n) => before + [n]
  }

  /** They are the readings of the entries that have one, each as often as it is written, in order. */
  lemma {:induction false} ParsedConcat(a: seq<string>, b: seq<string>, parse: string -> Option<Network>)
    ensures Parsed(a + b, parse) == Parsed(a, parse) + Parsed(b, parse)
    ensures |a| == 1 ==> Parsed(a, parse) == if parse(a[0]).Some? then [parse(a[0]).value] else []
  {
    if b == [] {
      assert a + b == a;
    } else {
      ParsedConcat(a, b[..|b| - 1], parse);
      assert (a + b)[..|a + b| - 1] == a + b[..|b| - 1];
    }
    if |a| == 1 { assert a[..0] == [] && Parsed([], parse) == []; }
  }

  method ParseTrustedProxies(raw: string, parse: string -> Option<Network>) returns (networks: seq<Network>)
    ensures networks == Parsed(Tokens(raw), parse)
  {
    networks := [];
    var pieces := Split(raw, ',');
    for i := 0 to |pieces|
      invariant networks == Parsed(Stripped(pieces[..i]), parse)
    {
      assert pieces[..i + 1][..i] == pieces[..i];
      var token := Strip(pieces[i]);
      if token == "" { continue; }
      ghost var more := Stripped(pieces[..i + 1]);
      assert more[..|more| - 1] == Stripped(pieces[..i]);
      var n := parse(token);
      if n.Some? { networks := networks + [n.value]; }
    }
    assert pieces[..|pieces|] == pieces;
  }

  /** The trust list in force, and how an entry reads as an address. */
  datatype Trust = Trust(networks: seq<Network>, parse: string -> Option<Address>) {

    predicate Trusted(ip: string) {
      parse(ip).Some? && exists n :: n in networks && n.Contains(parse(ip).value)
    }

    /** An entry that may be the client: it parses, and no trusted network holds it. */
    predicate Foreign(token: string) { parse(token).Some? && !Trusted(token) }

    /** The rightmost foreign entry. */
    function LastForeign(tokens: seq<string>): Option<string> {
      if tokens == [] then None
      else if Foreign(tokens[|tokens| - 1]) then Some(tokens[|tokens| - 1])
      else LastForeign(tokens[..|tokens| - 1])
    }

    function KeyOf(peer: string, header: Option<string>): string {
      if peer == "" || !Trusted(peer) || header.None? || header.value == "" then peer
      else
        match LastForeign(Tokens(header.value))
        case None => peer
        case Some(token) => token
    }

    /** Trusted means: an address inside the range of some network of its own family. */
    lemma TrustedMeans(ip: string)
      ensures Trusted(ip) <==>
        && parse(ip).Some?
        && var a := parse(ip).value;
           exists i :: 0 <= i < |networks| && networks[i].v6 == a.v6
             && networks[i].prefix * networks[i].hostSize <= a.value < (networks[i].prefix + 1) * networks[i].hostSize
    {
      if parse(ip).Some? {
        forall n: Network
          ensures n.Contains(parse(ip).value) <==>
            n.v6 == parse(ip).value.v6 && n.prefix * n.hostSize <= parse(ip).value.value < (n.prefix + 1) * n.hostSize
        {
          ContainsMeans(n, parse(ip).value);
        }
      }
    }

    method IpIsTrusted(ip: string) returns (b: bool)
      ensures b == Trusted(ip)
    {
      var address := parse(ip);
      if address.None? { return false; }
      for i := 0 to |networks|
        invariant forall j :: 0 <= j < i ==> !networks[j].Contains(address.value)
      {
        if networks[i].Contains(address.value) { return true; }
      }
      return false;
    }

    method ProxyAwareRemoteAddress(peer: string, xff: Option<string>) returns (key: string)
      ensures key == KeyOf(peer, xff)
      ensures IsKey(peer, xff, key)
    {
      KeyIsLastForeign(peer, xff);
      if peer == "" { return ""; }
      var peerTrusted := IpIsTrusted(peer);
      if !peerTrusted { return peer; }
      if xff.None? || xff.value == "" { return peer; }
      var tokens := Tokens(xff.value);
      var i := |tokens|;
      assert tokens[..i] == tokens;
      while i > 0
        invariant 0 <= i <= |tokens|
        invariant LastForeign(tokens[..i]) == LastForeign(tokens)
      {
        var token := tokens[i - 1];
        assert tokens[..i][..i - 1] == tokens[..i - 1];
        i := i - 1;
        if parse(token).None? { continue; }
        var trusted := IpIsTrusted(token);
        if !trusted { return token; }
      }
      return peer;
    }

    // --------------------------------------------------------------- its properties

    /** The entry at i parses and is not trusted, and none to its right is so. */
    predicate IsLastForeign(tokens: seq<string>, i: int) {
      && 0 <= i < |tokens| && parse(tokens[i]).Some? && !Trusted(tokens[i])
      && forall j :: i < j < |tokens| ==> parse(tokens[j]).None? || Trusted(tokens[j])
    }

    /** The walk's answer: the entry at i is foreign, and none to its right is. */
    lemma {:induction false} LastForeignIs(tokens: seq<string>)
      ensures LastForeign(tokens).None? <==> forall i :: 0 <= i < |tokens| ==> !Foreign(tokens[i])
      ensures LastForeign(tokens).Some? ==> exists i :: IsLastForeign(tokens, i) && LastForeign(tokens) == Some(tokens[i])
    {
      if tokens != [] && !Foreign(tokens[|tokens| - 1]) {
        var before := tokens[..|tokens| - 1];
        LastForeignIs(before);
        if LastForeign(before).Some? {
          var i :| IsLastForeign(before, i) && LastForeign(before) == Some(before[i]);
          assert IsLastForeign(tokens, i) && tokens[i] == before[i];
        }
        assert forall i :: 0 <= i < |before| ==> tokens[i] == before[i];
      } else if tokens != [] {
        assert IsLastForeign(tokens, |tokens| - 1);
      }
    }

    /**
      The key, exactly: with a trusted peer and a header, the entry that is foreign with none
      foreign to its right, and the peer itself if no entry is foreign; else the peer.
     */
    ghost predicate IsKey(peer: string, header: Option<string>, key: string) {
      if peer != "" && Trusted(peer) && header.Some? && header.value != "" then
        var tokens := Tokens(header.value);
        && (forall i :: IsLastForeign(tokens, i) ==> key == tokens[i])
        && ((forall i :: 0 <= i < |tokens| ==> parse(tokens[i]).None? || Trusted(tokens[i])) ==> key == peer)
      else key == peer
    }

    lemma KeyIsLastForeign(peer: string, header: Option<string>)
      ensures IsKey(peer, header, KeyOf(peer, header))
    {
      if header.Some? {
        var tokens := Tokens(header.value);
        LastForeignIs(tokens);
        forall i, j | IsLastForeign(tokens, i) && IsLastForeign(tokens, j)
          ensures i == j
        {
        }
      }
    }

    lemma {:induction false} LastForeignConcat(a: seq<string>, b: seq<string>)
      ensures LastForeign(a + b) == if LastForeign(b).Some? then LastForeign(b) else LastForeign(a)
    {
      if b == [] {
        assert a + b == a;
      } else {
        assert (a + b)[..|a + b| - 1] == a + b[..|b| - 1];
        LastForeignConcat(a, b[..|b| - 1]);
      }
    }

    /**
      Text prepended to the header, comma and all, matters exactly when the header had no
      foreign entry of its own: then the walk goes on into what was prepended.
     */
    lemma PrependingIsPowerless(peer: string, text: string, header: string)
      requires header != ""
      ensures LastForeign(Tokens(header)).Some? ==>
        KeyOf(peer, Some(text + "," + header)) == KeyOf(peer, Some(header))
      ensures LastForeign(Tokens(header)).None? ==>
        KeyOf(peer, Some(text + "," + header)) == KeyOf(peer, Some(text))
    {
      TokensConcat(text, header);
      LastForeignConcat(Tokens(text), Tokens(header));
      if text == "" { EmptyHasNoTokens(); }
    }

    /** The key is never made up: the peer itself, or a foreign entry of a trusted peer's header. */
    lemma KeyIsGenuine(peer: string, header: Option<string>)
      ensures KeyOf(peer, header) != peer ==>
        && Trusted(peer) && header.Some?
        && KeyOf(peer, header) in Tokens(header.value) && Foreign(KeyOf(peer, header))
      ensures !Trusted(peer) ==> KeyOf(peer, header) == peer
    {
      if header.Some? { LastForeignIs(Tokens(header.value)); }
    }
  }

  lemma ContainsMeans(n: Network, a: Address)
    ensures n.Contains(a) <==>
      n.v6 == a.v6 && n.prefix * n.hostSize <= a.value < (n.prefix + 1) * n.hostSize
  {
    if n.hostSize > 0 {
      DivisionMeans(a.value, n.hostSize, n.prefix);
    }
  }

  lemma DivisionMeans(v: nat, size: nat, q: nat)
    requires size > 0
    ensures v / size == q <==> q * size <= v < (q + 1) * size
  {
    var k, r := v / size, v % size;
    assert v == k * size + r && (q + 1) * size == q * size + size;
    if k < q { assert (k + 1) * size <= q * size; }
    if k > q { assert (q + 1) * size <= k * size; }
  }

  /** One entry of the header, without a comma: it counts without the white space around it, if anything is left. */
  lemma EntryIsStripped(entry: string)
    requires ',' !in entry
    ensures Tokens(entry) == if Strip(entry) == "" then [] else [Strip(entry)]
  {
    SplitWhole(entry, ',');
    assert [entry][..0] == [];
    assert Stripped([]) == [];
  }

  lemma EmptyHasNoTokens()
    ensures Tokens("") == []
  {
    assert [""][..0] == [];
  }

  lemma {:induction false} StrippedConcat(a: seq<string>, b: seq<string>)
    ensures Stripped(a + b) == Stripped(a) + Stripped(b)
  {
    if b == [] {
      assert a + b == a;
    } else {
      assert (a + b)[..|a + b| - 1] == a + b[..|b| - 1];
      StrippedConcat(a, b[..|b| - 1]);
    }
  }

  /** Splitting at a separator in the middle splits both sides on their own. */
  lemma {:induction false} SplitConcat(a: string, b: string, sep: char)
    ensures Split(a + [sep] + b, sep) == Split(a, sep) + Split(b, sep)
  {
    var s := a + [sep] + b;
    if a == "" {
      assert s[1..] == b;
    } else {
      SplitConcat(a[1..], b, sep);
      assert s[1..] == a[1..] + [sep] + b && s[0] == a[0];
      SplitStep(s, sep);
      SplitStep(a, sep);
      ConsConcat(Split(a[1..], sep), Split(b, sep), a[0], sep);
    }
  }

  /** Split, one character at a time. */
  function Cons(c: char, rest: seq<string>, sep: char): seq<string>
    requires rest != []
  {
    if c == sep then [""] + rest else [[c] + rest[0]] + rest[1..]
  }

  lemma SplitStep(s: string, sep: char)
    requires s != ""
    ensures Split(s, sep) == Cons(s[0], Split(s[1..], sep), sep)
  {
  }

  lemma ConsConcat(x: seq<string>, y: seq<string>, c: char, sep: char)
    requires x != []
    ensures Cons(c, x + y, sep) == Cons(c, x, sep) + y
  {
  }

  lemma TokensConcat(text: string, header: string)
    ensures Tokens(text + "," + header) == Tokens(text) + Tokens(header)
  {
    SplitConcat(text, header, ',');
    StrippedConcat(Split(text, ','), Split(header, ','));
  }
}
