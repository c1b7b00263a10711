/** The client's side of a streamed reply: frames folded into the assistant's bubble. */
module ChatClient {
  import opened ChatStream
  import opened Text

  const OFFLINE_FALLBACK := "The coach is offline right now \U{2014} try again in a moment."

  /** What arrives on the wire; anything may be cut short by an error. */
  datatype Arrival = Fragment(text: string) | Replacement(reply: string) | Finished | Error

  datatype Role = User | Assistant

  datatype Message = Message(id: nat, role: Role, text: string)

  /** One arrival's effect on the growing text. */
  function Grown(buffer: string, a: Arrival): string {
    match a
    case Fragment(text) => buffer + text
    case Replacement(reply) => reply
    case Finished => buffer
    case Error => buffer
  }

  function Buffer(arrivals: seq<Arrival>): string {
    if arrivals == [] then "" else Grown(Buffer(arrivals[..|arrivals| - 1]), arrivals[|arrivals| - 1])
  }

  /** The bubble once the stream is over. */
  function Bubble(arrivals: seq<Arrival>): string {
    if Buffer(arrivals) == "" then OFFLINE_FALLBACK else Buffer(arrivals)
  }

  class ChatViewModel {
    var draft: string
    var messages: seq<Message>
    var isStreaming: bool

    constructor ()
      ensures draft == "" && messages == [] && !isStreaming
    {
      draft, messages, isStreaming := "", [], false;
    }

    /** The ids in use are all below the next fresh one. */
    predicate IdsBelow(next: nat)
      reads this
    {
      forall i :: 0 <= i < |messages| ==> messages[i].id < next
    }

    /** Sets the text of the first message with that id, if there is one. */
    method Update(id: nat, text: string)
      modifies this`messages
      ensures |messages| == |old(messages)|
      ensures forall i :: 0 <= i < |messages| ==>
        messages[i] == if old(messages)[i].id == id && (forall j :: 0 <= j < i ==> old(messages)[j].id != id)
          then old(messages)[i].(text := text) else old(messages)[i]
    {
      for i := 0 to |messages|
        invariant messages == old(messages)
        invariant forall j :: 0 <= j < i ==> messages[j].id != id
      {
        if messages[i].id == id {
          messages := messages[i := messages[i].(text := text)];
          return;
        }
      }
    }

    /** Send the draft, trimmed, and fold the whole stream of the answer into one bubble. */
    method Send(loggedIn: bool, id: nat, arrivals: seq<Arrival>)
      requires IdsBelow(id)
      modifies this
      ensures Strip(old(draft)) == "" || old(isStreaming) || !loggedIn ==>
        messages == old(messages) && isStreaming == old(isStreaming) && draft == old(draft)
      ensures Strip(old(draft)) != "" && !old(isStreaming) && loggedIn ==>
        && messages == old(messages)
          + [Message(id, User, Strip(old(draft))), Message(id + 1, Assistant, Bubble(arrivals))]
        && !isStreaming && draft == ""
    {
      var text := Strip(draft);
      if text == "" || isStreaming || !loggedIn { return; }
      draft := "";
      messages := messages + [Message(id, User, text)];
      messages := messages + [Message(id + 1, Assistant, "")];
      isStreaming := true;
      ghost var shown := messages[..|messages| - 1];
      var buffer := "";
      for i := 0 to |arrivals|
        invariant draft == "" && buffer == Buffer(arrivals[..i])
        invariant messages == shown + [Message(id + 1, Assistant, buffer)]
        invariant forall j :: 0 <= j < |shown| ==> shown[j].id != id + 1
      {
        assert arrivals[..i + 1][..i] == arrivals[..i];
        match arrivals[i]
        case Fragment(fragment) =>
          buffer := buffer + fragment;
          Update(id + 1, buffer);
        case Replacement(reply) =>
          buffer := reply;
          Update(id + 1, reply);
        case Finished =>
        case Error =>
      }
      assert arrivals[..|arrivals|] == arrivals;
      if buffer == "" { Update(id + 1, OFFLINE_FALLBACK); }
      isStreaming := false;
    }
  }

  /** The texts of the fragments, joined. */
  function Fragments(arrivals: seq<Arrival>): string {
    if arrivals == [] then ""
    else Fragments(arrivals[..|arrivals| - 1])
         + match arrivals[|arrivals| - 1] { case Fragment(text) => text case _ => "" }
  }

  /**
    What is shown of any stream, wherever it breaks off: all its fragments, or the last
    replacement and the fragments after it.
   */
  lemma {:induction false} BufferMeans(before: seq<Arrival>, reply: string, after: seq<Arrival>)
    requires forall a :: a in after ==> !a.Replacement?
    ensures Buffer(after) == Fragments(after)
    ensures Buffer(before + [Replacement(reply)] + after) == reply + Fragments(after)
  {
    var all := before + [Replacement(reply)] + after;
    if after == [] {
      assert all == before + [Replacement(reply)];
      assert reply + "" == reply;
    } else {
      BufferMeans(before, reply, after[..|after| - 1]);
      assert all[..|all| - 1] == before + [Replacement(reply)] + after[..|after| - 1];
      assert after[|after| - 1] in after;
    }
  }

  // --------------------------------------------------------- what the server sent

  function ArrivalOf(frame: Frame): Arrival {
    match frame
    case ChunkFrame(text) => Fragment(text)
    case DoneFrame(_) => Finished
    case AbortFrame(reply, _) => Replacement(reply)
  }

  /** The frames of a trace, as the client receives them. */
  function Arrivals(t: seq<Effect>): seq<Arrival> {
    if t == [] then []
    else
      var before, e := Arrivals(t[..|t| - 1]), t[|t| - 1];
      if e.Sent? then before + [ArrivalOf(e.frame)] else before
  }

  /** The text that a trace's frames leave in the bubble. */
  function Shown(t: seq<Effect>): string { Buffer(Arrivals(t)) }

  lemma ShownMore(t: seq<Effect>, e: Effect)
    ensures Shown(t + [e]) == if e.Sent? then Grown(Shown(t), ArrivalOf(e.frame)) else Shown(t)
  {
    assert (t + [e])[..|t|] == t;
    if e.Sent? {
      var a := Arrivals(t) + [ArrivalOf(e.frame)];
      assert a[..|a| - 1] == Arrivals(t);
    }
  }

  /** An optional commit changes nothing on the screen. */
  lemma ShownCommit(t: seq<Effect>, commit: seq<Effect>)
    requires commit == [] || commit == [Committed]
    ensures Shown(t + commit) == Shown(t)
  {
    if commit == [] { assert t + commit == t; } else { ShownMore(t, Committed); }
  }

  /** A terminal group: persisted, counted, perhaps a rotation, and the frame. */
  lemma ShownEnding(t: seq<Effect>, saved: Effect, commit: seq<Effect>, frame: Frame)
    requires saved.Persisted? && (commit == [] || commit == [Committed])
    ensures Shown(t + ([saved, Recorded] + commit + [Sent(frame)])) == Grown(Shown(t), ArrivalOf(frame))
  {
    ShownMore(t, saved);
    ShownMore(t + [saved], Recorded);
    ShownCommit(t + [saved] + [Recorded], commit);
    ShownMore(t + [saved] + [Recorded] + commit, Sent(frame));
    assert t + ([saved, Recorded] + commit + [Sent(frame)]) == t + [saved] + [Recorded] + commit + [Sent(frame)];
  }

  lemma ShownChunk(t: seq<Effect>, text: string, commit: seq<Effect>)
    requires commit == [] || commit == [Committed]
    ensures Shown(t + ([Sent(ChunkFrame(text))] + commit)) == Shown(t) + text
  {
    var chunk := Sent(ChunkFrame(text));
    ShownMore(t, chunk);
    if commit == [] {
      assert [chunk] + commit == [chunk];
    } else {
      ShownMore(t + [chunk], Committed);
      assert t + ([chunk] + commit) == t + [chunk] + [Committed];
    }
  }

  function ChunkText(events: seq<StreamEvent>): string {
    if events == [] then ""
    else
      ChunkText(events[..|events| - 1]) + if events[|events| - 1].Chunk? then events[|events| - 1].text else ""
  }

  /** The reply that the generator persists for a stream. */
  function Reply(events: seq<StreamEvent>, fb: Fallback): string {
    if events == [] then fb.reply
    else
      match events[|events| - 1]
      case Chunk(_) => fb.reply
      case Done(reply, _) => reply
      case Recovered(reply, _) => reply
      case Abort => fb.reply
  }

  lemma {:induction false} ShownChunks(events: seq<StreamEvent>, pending: bool, fb: Fallback)
    requires forall i :: 0 <= i < |events| ==> events[i].Chunk?
    ensures Shown(LoopTrace(events, pending, fb)) == ChunkText(events)
  {
    if events != [] {
      var before, e := events[..|events| - 1], events[|events| - 1];
      ShownChunks(before, pending, fb);
      LoopUnfolds(events, pending, fb);
      ShownChunk(LoopTrace(before, pending, fb), e.text, if Commits(before) then [] else Commit(pending));
    }
  }

  /** What one terminal event leaves on the screen. */
  lemma ShownEffects(t: seq<Effect>, e: StreamEvent, committed: bool, pending: bool, fb: Fallback)
    requires IsTerminal(e)
    ensures Shown(t + EffectsOf(e, committed, pending, fb)) ==
      match e
      case Recovered(reply, _) => reply
      case Abort => fb.reply
      case _ => Shown(t)
  {
    var commit := if committed then [] else Commit(pending);
    match e
    case Done(reply, mode) =>
      ShownEnding(t, Persisted(reply, mode), [], DoneFrame(mode));
      assert [Persisted(reply, mode), Recorded] + [] + [Sent(DoneFrame(mode))] == EffectsOf(e, committed, pending, fb);
    case Recovered(reply, mode) => ShownEnding(t, Persisted(reply, mode), commit, AbortFrame(reply, mode));
    case Abort => ShownEnding(t, Persisted(fb.reply, fb.mode), commit, AbortFrame(fb.reply, fb.mode));
  }

  /** The last event of a well-formed stream decides what is shown. */
  lemma ShownTerminal(events: seq<StreamEvent>, pending: bool, fb: Fallback)
    requires WellFormed(events) && events != [] && IsTerminal(events[|events| - 1])
    ensures Shown(LoopTrace(events, pending, fb)) ==
      if events[|events| - 1].Done? then ChunkText(events) else Reply(events, fb)
  {
    var before, e := events[..|events| - 1], events[|events| - 1];
    assert forall i :: 0 <= i < |before| ==> before[i] == events[i] && before[i].Chunk?;
    ShownChunks(before, pending, fb);
    LoopUnfolds(events, pending, fb);
    ShownEffects(LoopTrace(before, pending, fb), e, Commits(before), pending, fb);
    assert ChunkText(before) + "" == ChunkText(before);
  }

  /** Chunks only: the defensive tail replaces them. */
  lemma ShownTail(events: seq<StreamEvent>, pending: bool, fb: Fallback)
    requires WellFormed(events) && (events != [] ==> !IsTerminal(events[|events| - 1]))
    ensures Shown(Trace(events, pending, fb)) == fb.reply
  {
    OneTerminalAtMost(events);
    ShownEnding(LoopTrace(events, pending, fb), Persisted(fb.reply, fb.mode), [], AbortFrame(fb.reply, fb.mode));
    assert [Persisted(fb.reply, fb.mode), Recorded] + [] + [Sent(AbortFrame(fb.reply, fb.mode))] == TailTrace(events, fb);
  }

  lemma ShownAtTheEnd(events: seq<StreamEvent>, pending: bool, fb: Fallback)
    requires WellFormed(events)
    ensures Shown(Trace(events, pending, fb)) ==
      if events != [] && events[|events| - 1].Done? then ChunkText(events) else Reply(events, fb)
  {
    if events != [] && IsTerminal(events[|events| - 1]) {
      OneTerminalAtMost(events);
      ShownTerminal(events, pending, fb);
      NoTail(LoopTrace(events, pending, fb));
    } else {
      ShownTail(events, pending, fb);
    }
  }

  lemma NoTail(t: seq<Effect>)
    ensures t + [] == t
  {
  }

  /**
    End to end: the final bubble is the persisted reply when the stream was replaced, the
    concatenated chunks when it was done, and the offline text only when that is empty.
   */
  lemma BubbleMatchesServer(events: seq<StreamEvent>, pending: bool, fb: Fallback, arrivals: seq<Arrival>)
    requires WellFormed(events) && arrivals == Arrivals(Trace(events, pending, fb))
    ensures var text := if events != [] && events[|events| - 1].Done? then ChunkText(events) else Reply(events, fb);
      Bubble(arrivals) == if text == "" then OFFLINE_FALLBACK else text
  {
    ShownAtTheEnd(events, pending, fb);
  }

  function ReplyMode(events: seq<StreamEvent>, fb: Fallback): string {
    if events == [] then fb.mode
    else
      match events[|events| - 1]
      case Done(_, mode) => mode
      case Recovered(_, mode) => mode
      case _ => fb.mode
  }

  /** ... where the reply spoken of is the one that was persisted. */
  lemma PersistsReply(events: seq<StreamEvent>, pending: bool, fb: Fallback)
    requires WellFormed(events)
    ensures Persisted(Reply(events, fb), ReplyMode(events, fb)) in Trace(events, pending, fb)
  {
    OneTerminalAtMost(events);
    if events != [] && IsTerminal(events[|events| - 1]) {
      var before, e := events[..|events| - 1], events[|events| - 1];
      LoopUnfolds(events, pending, fb);
      var b := EffectsOf(e, Commits(before), pending, fb);
      assert b[0] == Persisted(Reply(events, fb), ReplyMode(events, fb));
      assert b[0] in b && b[0] in LoopTrace(events, pending, fb);
    } else {
      var b := TailTrace(events, fb);
      assert b[0] == Persisted(Reply(events, fb), ReplyMode(events, fb));
      assert b[0] in b;
    }
  }

  // ------------------------------------------------------------- the whole trace

  /** The frames of some chunks. */
  function ChunkFrames(events: seq<StreamEvent>): (t: seq<Effect>)
    requires forall i :: 0 <= i < |events| ==> events[i].Chunk?
    ensures |t| == |events| && forall i :: 0 <= i < |t| ==> t[i] == Sent(ChunkFrame(events[i].text))
  {
    seq(|events|, i requires 0 <= i < |events| => Sent(ChunkFrame(events[i].text)))
  }

  lemma {:induction false} ChunksTrace(events: seq<StreamEvent>, pending: bool, fb: Fallback)
    requires events != [] && forall i :: 0 <= i < |events| ==> events[i].Chunk?
    ensures Commits(events)
    ensures LoopTrace(events, pending, fb) ==
      [Sent(ChunkFrame(events[0].text))] + Commit(pending) + ChunkFrames(events[1..])
  {
    var before := events[..|events| - 1];
    LoopUnfolds(events, pending, fb);
    if |events| == 1 {
      assert LoopTrace(before, pending, fb) == [];
      assert ChunkFrames(events[1..]) == [];
    } else {
      ChunksTrace(before, pending, fb);
      assert before[0] == events[0];
      assert ChunkFrames(events[1..]) == ChunkFrames(before[1..]) + [Sent(ChunkFrame(events[|events| - 1].text))];
    }
  }

  /** The last group of effects: saved, counted, the rotation if nothing was sent before, and the frame. */
  function Ending(reply: string, mode: string, commit: seq<Effect>, done: bool): seq<Effect> {
    [Persisted(reply, mode), Recorded] + commit + [Sent(if done then DoneFrame(mode) else AbortFrame(reply, mode))]
  }

  /**
    The whole of what a produced stream does, in order: the first chunk, the rotation once it
    is out, the other chunks; then the reply is saved and counted, with the rotation if no chunk
    went before, and its frame is sent last.
   */
  lemma TraceWritten(events: seq<StreamEvent>, pending: bool, fb: Fallback)
    requires Produced(events)
    ensures var n, reply, mode := |events| - 1, Reply(events, fb), ReplyMode(events, fb);
      Trace(events, pending, fb) ==
        (if n == 0 then [] else [Sent(ChunkFrame(events[0].text))] + Commit(pending) + ChunkFrames(events[1..n]))
        + Ending(reply, mode, if n == 0 then Commit(pending) else [], events[n].Done?)
  {
    var n := |events| - 1;
    var before := events[..n];
    OneTerminalAtMost(events);
    LoopUnfolds(events, pending, fb);
    NoTail(LoopTrace(events, pending, fb));
    if n == 0 {
      assert LoopTrace(before, pending, fb) == [];
    } else {
      ChunksTrace(before, pending, fb);
      assert before[0] == events[0] && before[1..] == events[1..n];
    }
  }

  /** A stream that breaks off without a last event: its chunks, and then the fallback as the reply. */
  lemma TailWritten(events: seq<StreamEvent>, pending: bool, fb: Fallback)
    requires forall i :: 0 <= i < |events| ==> events[i].Chunk?
    ensures Trace(events, pending, fb) ==
      (if events == [] then [] else [Sent(ChunkFrame(events[0].text))] + Commit(pending) + ChunkFrames(events[1..]))
      + Ending(fb.reply, fb.mode, [], false)
  {
    OneTerminalAtMost(events);
    if events != [] { ChunksTrace(events, pending, fb); }
    assert TailTrace(events, fb) == Ending(fb.reply, fb.mode, [], false);
  }
}
