/**
  The reply pipeline's streaming loop: attempts at a validated reply, of which only the first
  that shows the client anything is live, retried silently from then on.
 */
module ReplyProducer {
  import opened Text
  import opened ChatStream
  import opened ChatClient

  /** What the validators say of a complete reply. */
  datatype Verdict = Good | Again | Blocked

  /** How reading an attempt's tokens ends: cut short, to be tried again or not, or with the whole reply. */
  datatype Ending = Cut(again: bool) | Whole(verdict: Verdict)

  /** One attempt: its prompt cannot be built, or these tokens pass the gates and then it ends. */
  datatype Attempt = NoPrompt | Reading(tokens: seq<string>, ending: Ending)

  const MODE := "CHAT_V1"

  function Concat(tokens: seq<string>): string {
    if tokens == [] then "" else Concat(tokens[..|tokens| - 1]) + tokens[|tokens| - 1]
  }

  /** The attempt is given up silently for the next one. */
  predicate Retries(a: Attempt) {
    && a.Reading?
    && (a.ending == Cut(true)
        || (a.ending.Whole? && (Strip(Concat(a.tokens)) == "" || a.ending.verdict == Again)))
  }

  /** The attempt yields its reply. */
  predicate Succeeds(a: Attempt) {
    a.Reading? && a.ending == Whole(Good) && Strip(Concat(a.tokens)) != ""
  }

  /** The first attempt that is not given up, if any. */
  predicate Decides(attempts: seq<Attempt>, i: nat) {
    i < |attempts| && !Retries(attempts[i]) && forall j :: 0 <= j < i ==> Retries(attempts[j])
  }

  /** Index of the last space before pos, or -1. */
  function SpaceBefore(buffer: string, pos: nat): (i: int)
    requires pos <= |buffer|
    ensures -1 <= i < pos
  {
    if pos == 0 then -1 else if buffer[pos - 1] == ' ' then pos - 1 else SpaceBefore(buffer, pos - 1)
  }

  /** _safe_emit_boundary: everything but the last so many words may be sent. */
  method SafeEmitBoundary(buffer: string, lookaheadWords: nat) returns (pos: nat)
    ensures pos <= |buffer|
    ensures pos == Boundary(buffer, |buffer|, lookaheadWords)
  {
    pos := |buffer|;
    for i := 0 to lookaheadWords
      invariant pos <= |buffer|
      invariant Boundary(buffer, pos, lookaheadWords - i) == Boundary(buffer, |buffer|, lookaheadWords)
    {
      var space := SpaceBefore(buffer, pos);
      if space == -1 { return 0; }
      pos := space;
    }
  }

  function Boundary(buffer: string, pos: nat, words: nat): (p: nat)
    requires pos <= |buffer|
    ensures p <= pos
  {
    if words == 0 then pos
    else
      var space := SpaceBefore(buffer, pos);
      if space == -1 then 0 else Boundary(buffer, space, words - 1)
  }

  function SpacesIn(s: string): nat {
    if s == "" then 0 else (if s[0] == ' ' then 1 else 0) + SpacesIn(s[1..])
  }

  lemma {:induction false} SpacesConcat(a: string, b: string)
    ensures SpacesIn(a + b) == SpacesIn(a) + SpacesIn(b)
  {
    if a == "" {
      assert a + b == b;
    } else {
      SpacesConcat(a[1..], b);
      assert (a + b)[1..] == a[1..] + b;
    }
  }

  lemma {:induction false} NoSpaces(s: string)
    ensures SpacesIn(s) == 0 <==> ' ' !in s
  {
    if s != "" {
      NoSpaces(s[1..]);
      assert s == [s[0]] + s[1..];
    }
  }

  lemma {:induction false} SpaceBeforeMeans(buffer: string, pos: nat)
    requires pos <= |buffer|
    ensures SpaceBefore(buffer, pos) == -1 ==> ' ' !in buffer[..pos]
    ensures SpaceBefore(buffer, pos) != -1 ==>
      var i := SpaceBefore(buffer, pos); buffer[i] == ' ' && ' ' !in buffer[i + 1..pos]
  {
    if pos > 0 && buffer[pos - 1] != ' ' {
      SpaceBeforeMeans(buffer, pos - 1);
      assert buffer[..pos] == buffer[..pos - 1] + [buffer[pos - 1]];
      var i := SpaceBefore(buffer, pos);
      if i != -1 { assert buffer[i + 1..pos] == buffer[i + 1..pos - 1] + [buffer[pos - 1]]; }
    }
  }

  lemma SpacesFrom(buffer: string, pos: nat, i: nat, p: nat)
    requires p <= i < pos <= |buffer| && buffer[i] == ' ' && ' ' !in buffer[i + 1..pos]
    ensures SpacesIn(buffer[p..pos]) == SpacesIn(buffer[p..i]) + 1
  {
    NoSpaces(buffer[i + 1..pos]);
    assert buffer[p..pos] == buffer[p..i] + ([' '] + buffer[i + 1..pos]);
    SpacesConcat(buffer[p..i], [' '] + buffer[i + 1..pos]);
    assert ([' '] + buffer[i + 1..pos])[1..] == buffer[i + 1..pos];
  }

  /**
    What is held back, exactly: nothing if no words are to be, else the text from so many
    spaces before the end on, and all of it if there are not that many.
   */
  lemma {:induction false} BoundaryMeans(buffer: string, pos: nat, words: nat)
    requires pos <= |buffer|
    ensures var p := Boundary(buffer, pos, words);
      if words == 0 then p == pos
      else if SpacesIn(buffer[..pos]) < words then p == 0
      else p < pos && buffer[p] == ' ' && SpacesIn(buffer[p..pos]) == words
  {
    if words > 0 {
      SpaceBeforeMeans(buffer, pos);
      NoSpaces(buffer[..pos]);
      var i := SpaceBefore(buffer, pos);
      if i != -1 {
        BoundaryMeans(buffer, i, words - 1);
        assert buffer[0..pos] == buffer[..pos] && buffer[0..i] == buffer[..i];
        SpacesFrom(buffer, pos, i, 0);
        SpacesFrom(buffer, pos, i, Boundary(buffer, pos, words));
        assert words == 1 ==> buffer[i..i] == "";
      }
    }
  }

  predicate OnlyChunks(events: seq<StreamEvent>) { forall i :: 0 <= i < |events| ==> events[i].Chunk? }

  lemma ChunkMore(events: seq<StreamEvent>, e: StreamEvent)
    ensures ChunkText(events + [e]) == ChunkText(events) + if e.Chunk? then e.text else ""
  {
    assert (events + [e])[..|events|] == events;
  }

  /** One attempt's tokens, sent on as far as is safe while the attempt is live. */
  method ReadTokens(tokens: seq<string>, live: bool, lookaheadWords: nat, sent: seq<StreamEvent>)
    returns (events: seq<StreamEvent>, emitted: nat)
    requires OnlyChunks(sent) && (live ==> sent == [])
    ensures OnlyChunks(events) && sent <= events && (!live ==> events == sent && emitted == 0)
    ensures emitted <= |Concat(tokens)| && (emitted > 0 ==> events != [])
    ensures live ==> ChunkText(events) == Concat(tokens)[..emitted]
  {
    var buffer := "";
    events, emitted := sent, 0;
    for i := 0 to |tokens|
      invariant buffer == Concat(tokens[..i]) && emitted <= |buffer|
      invariant OnlyChunks(events) && sent <= events && (!live ==> events == sent && emitted == 0)
      invariant emitted > 0 ==> events != []
      invariant live ==> ChunkText(events) == buffer[..emitted]
    {
      assert tokens[..i + 1][..i] == tokens[..i];
      buffer := buffer + tokens[i];
      if live {
        var boundary := SafeEmitBoundary(buffer, lookaheadWords);
        if boundary > emitted {
          ChunkMore(events, Chunk(buffer[emitted..boundary]));
          assert buffer[..emitted] + buffer[emitted..boundary] == buffer[..boundary];
          events := events + [Chunk(buffer[emitted..boundary])];
          emitted := boundary;
        }
      }
    }
    assert tokens[..|tokens|] == tokens;
  }

  /** What is promised of the events and the attempts behind them. */
  ghost predicate Answers(events: seq<StreamEvent>, available: bool, attempts: seq<Attempt>) {
    && Produced(events)
    && var last := events[|events| - 1];
       && (last.Abort? <==> !available || !exists i: nat :: Decides(attempts, i) && Succeeds(attempts[i]))
       && (!last.Abort? ==> exists i: nat :: Decides(attempts, i) && Delivers(events, attempts[i]))
  }

  /** The events deliver the attempt's reply: live, the chunks are its text; else as a replacement. */
  predicate Delivers(events: seq<StreamEvent>, a: Attempt)
    requires events != []
  {
    && Succeeds(a)
    && (|| (events[|events| - 1] == Done(Strip(Concat(a.tokens)), MODE) && ChunkText(events) == Concat(a.tokens))
        || events[|events| - 1] == Recovered(Strip(Concat(a.tokens)), MODE))
  }

  /** The first attempt that is not given up is the only one that decides. */
  lemma Decided(attempts: seq<Attempt>, i: nat)
    requires Decides(attempts, i)
    ensures forall j: nat :: Decides(attempts, j) ==> j == i
  {
  }

  lemma AbortAnswers(sent: seq<StreamEvent>, available: bool, attempts: seq<Attempt>)
    requires OnlyChunks(sent)
    requires !available || forall i: nat :: Decides(attempts, i) ==> !Succeeds(attempts[i])
    ensures Answers(sent + [Abort], available, attempts)
  {
  }

  lemma ReplyAnswers(sent: seq<StreamEvent>, last: StreamEvent, attempts: seq<Attempt>, i: nat)
    requires OnlyChunks(sent) && Decides(attempts, i) && Delivers(sent + [last], attempts[i])
    requires last.Done? ==> sent != []
    ensures Answers(sent + [last], true, attempts)
  {
    assert (sent + [last])[|sent|] == last;
  }

  /** An attempt that is passed over: cut short to be tried again, told to try again, or blank. */
  predicate GivenUp(a: Attempt) {
    match a
    case NoPrompt => false
    case Reading(tokens, Cut(again)) => again
    case Reading(tokens, Whole(verdict)) => verdict == Again || forall c :: c in Concat(tokens) ==> c in " \t\n\U{b}\U{c}\r"
  }

  lemma BlankMeans(s: string)
    ensures Strip(s) == "" <==> forall c :: c in s ==> c in " \t\n\U{b}\U{c}\r"
  {
    var a, b := StripMeans(s);
    if Strip(s) == "" {
      assert s == a + b;
    } else {
      assert Strip(s)[0] in Strip(s) && Strip(s)[0] in s;
    }
  }

  lemma RetriesMeans(a: Attempt)
    ensures Retries(a) <==> GivenUp(a)
  {
    if a.Reading? { BlankMeans(Concat(a.tokens)); }
  }

  /**
    Which reply is delivered, exactly: that of the first attempt not passed over, if its reply
    is good; if it is not, or every attempt is passed over, or there is no model, none is.
   */
  lemma FirstDelivers(events: seq<StreamEvent>, available: bool, attempts: seq<Attempt>, k: nat)
    requires Answers(events, available, attempts) && k <= |attempts|
    requires forall j :: 0 <= j < k ==> GivenUp(attempts[j])
    requires k < |attempts| ==> !GivenUp(attempts[k])
    ensures var last := events[|events| - 1];
      if available && k < |attempts| && attempts[k].Reading? && attempts[k].ending == Whole(Good) then
        var text := Concat(attempts[k].tokens);
        || (last == Done(Strip(text), "CHAT_V1") && ChunkText(events) == text)
        || last == Recovered(Strip(text), "CHAT_V1")
      else last == Abort
  {
    forall j | 0 <= j < |attempts|
      ensures Retries(attempts[j]) <==> GivenUp(attempts[j])
    {
      RetriesMeans(attempts[j]);
    }
    if k < |attempts| {
      assert Decides(attempts, k);
      Decided(attempts, k);
    } else {
      assert forall i: nat :: !Decides(attempts, i);
    }
  }

  /** stream_chat_reply */
  method StreamChatReply(available: bool, attempts: seq<Attempt>, lookaheadWords: nat) returns (events: seq<StreamEvent>)
    ensures Answers(events, available, attempts)
  {
    events := [];
    if !available {
      AbortAnswers(events, available, attempts);
      return events + [Abort];
    }
    var anyEmitted := false;
    for i := 0 to |attempts|
      invariant OnlyChunks(events) && (anyEmitted <==> events != [])
      invariant forall j :: 0 <= j < i ==> Retries(attempts[j])
    {
      var a := attempts[i];
      if a.NoPrompt? {
        Decided(attempts, i);
        AbortAnswers(events, available, attempts);
        return events + [Abort];
      }
      var live := !anyEmitted;
      var emitted;
      events, emitted := ReadTokens(a.tokens, live, lookaheadWords, events);
      anyEmitted := events != [];
      if a.ending.Cut? {
        if a.ending.again { continue; }
        Decided(attempts, i);
        AbortAnswers(events, available, attempts);
        return events + [Abort];
      }
      var buffer := Concat(a.tokens);
      var reply := Strip(buffer);
      if reply == "" || a.ending.verdict == Again { continue; }
      Decided(attempts, i);
      if a.ending.verdict == Blocked {
        AbortAnswers(events, available, attempts);
        return events + [Abort];
      }
      var last;
      events, last := Deliver(events, live, buffer, emitted, reply);
      ReplyAnswers(events, last, attempts, i);
      return events + [last];
    }
    AbortAnswers(events, available, attempts);
    return events + [Abort];
  }

  /** The held tail and the end of a live reply, or the whole of a silent one. */
  method Deliver(sent: seq<StreamEvent>, live: bool, buffer: string, emitted: nat, reply: string)
    returns (events: seq<StreamEvent>, last: StreamEvent)
    requires OnlyChunks(sent) && emitted <= |buffer| && reply == Strip(buffer) != ""
    requires live ==> ChunkText(sent) == buffer[..emitted] && (emitted > 0 ==> sent != [])
    ensures OnlyChunks(events) && last == (if live then Done(reply, MODE) else Recovered(reply, MODE))
    ensures live ==> events != [] && ChunkText(events + [last]) == buffer
  {
    events := sent;
    if !live { return events, Recovered(reply, MODE); }
    StripsFromSomething(buffer);
    last := Done(reply, MODE);
    if emitted < |buffer| {
      ChunkMore(events, Chunk(buffer[emitted..]));
      assert buffer[..emitted] + buffer[emitted..] == buffer;
      events := events + [Chunk(buffer[emitted..])];
    } else {
      assert buffer[..emitted] == buffer;
    }
    ChunkMore(events, last);
    assert ChunkText(events) + "" == ChunkText(events);
  }

  lemma StripsFromSomething(s: string)
    requires Strip(s) != ""
    ensures s != ""
  {
  }

  // --------------------------------------------------------------- end to end

  /**
    What the user sees is what is saved: the final bubble of a produced stream is the
    persisted reply, up to white space around it, whichever way the stream ended.
   */
  lemma BubbleIsTheReply(
    events: seq<StreamEvent>, available: bool, attempts: seq<Attempt>, pending: bool, fb: Fallback, arrivals: seq<Arrival>)
    requires Answers(events, available, attempts) && arrivals == Arrivals(Trace(events, pending, fb))
    requires fb.reply != ""
    ensures Strip(Bubble(arrivals)) == Strip(Reply(events, fb))
    ensures Persisted(Reply(events, fb), ReplyMode(events, fb)) in Trace(events, pending, fb)
  {
    BubbleMatchesServer(events, pending, fb, arrivals);
    PersistsReply(events, pending, fb);
    if !events[|events| - 1].Abort? {
      var i: nat :| Decides(attempts, i) && Delivers(events, attempts[i]);
      StripTwice(Concat(attempts[i].tokens));
      StripsFromSomething(Concat(attempts[i].tokens));
    }
  }

  lemma {:induction false} LeftStripped(s: string)
    ensures StripLeft(StripLeft(s)) == StripLeft(s)
  {
    if s != "" && IsSpace(s[0]) { LeftStripped(s[1..]); }
  }

  lemma {:induction false} RightStripped(s: string)
    ensures StripRight(StripRight(s)) == StripRight(s)
    ensures StripRight(s) <= s
  {
    if s != "" && IsSpace(s[|s| - 1]) { RightStripped(s[..|s| - 1]); }
  }

  lemma StripTwice(s: string)
    ensures Strip(Strip(s)) == Strip(s)
  {
    LeftStripped(s);
    RightStripped(StripLeft(s));
    HeadStays(s);
  }

  lemma {:induction false} LeftHead(s: string)
    ensures StripLeft(s) == "" || !IsSpace(StripLeft(s)[0])
  {
    if s != "" && IsSpace(s[0]) { LeftHead(s[1..]); }
  }

  lemma HeadStays(s: string)
    ensures StripLeft(Strip(s)) == Strip(s)
  {
    LeftHead(s);
    RightStripped(StripLeft(s));
  }
}
