/**
  The streaming chat route: the generator that answers one turn, who commits the token
  rotation, and the client's fold of the frames into one bubble.
 */
module ChatStream {
  import opened Squares

  /** What the reply pipeline produces. */
  datatype StreamEvent =
    | Chunk(text: string)
    | Done(reply: string, mode: string)
    | Recovered(reply: string, mode: string)
    | Abort

  datatype Frame = ChunkFrame(text: string) | DoneFrame(mode: string) | AbortFrame(reply: string, mode: string)

  /** What the generator does, in order; a client may disconnect at any Sent. */
  datatype Effect = Sent(frame: Frame) | Persisted(reply: string, mode: string) | Recorded | Committed

  /** The deterministic reply used when the pipeline has none. */
  datatype Fallback = Fallback(reply: string, mode: string)

  function Commit(pending: bool): seq<Effect> { if pending then [Committed] else [] }

  /** One turn of the loop of _generate: its effects. */
  function EffectsOf(e: StreamEvent, committed: bool, pending: bool, fb: Fallback): seq<Effect> {
    match e
    case Chunk(text) => [Sent(ChunkFrame(text))] + (if committed then [] else Commit(pending))
    case Done(reply, mode) => [Persisted(reply, mode), Recorded, Sent(DoneFrame(mode))]
    case Recovered(reply, mode) =>
      [Persisted(reply, mode), Recorded] + (if committed then [] else Commit(pending)) + [Sent(AbortFrame(reply, mode))]
    case Abort =>
      [Persisted(fb.reply, fb.mode), Recorded] + (if committed then [] else Commit(pending))
      + [Sent(AbortFrame(fb.reply, fb.mode))]
  }

  /** After these events the rotation has been committed, if there was one. */
  predicate Commits(events: seq<StreamEvent>) {
    events != [] && (Commits(events[..|events| - 1]) || !events[|events| - 1].Done?)
  }

  predicate IsTerminal(e: StreamEvent) { !e.Chunk? }

  function TerminalCount(events: seq<StreamEvent>): nat {
    if events == [] then 0
    else TerminalCount(events[..|events| - 1]) + One(IsTerminal(events[|events| - 1]))
  }

  function LoopTrace(events: seq<StreamEvent>, pending: bool, fb: Fallback): seq<Effect> {
    if events == [] then []
    else
      var before := events[..|events| - 1];
      LoopTrace(before, pending, fb) + EffectsOf(events[|events| - 1], Commits(before), pending, fb)
  }

  /** The defensive tail, when no terminal event was seen. */
  function TailTrace(events: seq<StreamEvent>, fb: Fallback): seq<Effect> {
    if TerminalCount(events) > 0 then []
    else [Persisted(fb.reply, fb.mode), Recorded, Sent(AbortFrame(fb.reply, fb.mode))]
  }

  function Trace(events: seq<StreamEvent>, pending: bool, fb: Fallback): seq<Effect> {
    LoopTrace(events, pending, fb) + TailTrace(events, fb)
  }

  /** One event more: what the loop adds, and what it knows afterwards. */
  lemma PrefixGrows(events: seq<StreamEvent>, i: nat, pending: bool, fb: Fallback)
    requires i < |events|
    ensures LoopTrace(events[..i + 1], pending, fb) ==
      LoopTrace(events[..i], pending, fb) + EffectsOf(events[i], Commits(events[..i]), pending, fb)
    ensures Commits(events[..i + 1]) <==> Commits(events[..i]) || !events[i].Done?
    ensures TerminalCount(events[..i + 1]) == TerminalCount(events[..i]) + One(IsTerminal(events[i]))
  {
    var more := events[..i + 1];
    assert more[..|more| - 1] == events[..i] && more[|more| - 1] == events[i];
  }

  class Generator {
    const pending: bool
    const fb: Fallback
    var rotationCommitted: bool
    var sawTerminal: bool
    /** Everything done so far. */
    var trace: seq<Effect>

    constructor (pending: bool, fb: Fallback)
      ensures this.pending == pending && this.fb == fb && !rotationCommitted && !sawTerminal && trace == []
    {
      this.pending, this.fb := pending, fb;
      rotationCommitted, sawTerminal, trace := false, false, [];
    }

    method CommitRotation()
      modifies this`trace
      ensures trace == old(trace) + Commit(pending)
    {
      if pending { trace := trace + [Committed]; }
    }

    method Handle(event: StreamEvent)
      modifies this
      ensures trace == old(trace) + EffectsOf(event, old(rotationCommitted), pending, fb)
      ensures rotationCommitted == (old(rotationCommitted) || !event.Done?)
      ensures sawTerminal == (old(sawTerminal) || IsTerminal(event))
    {
      match event
      case Chunk(text) =>
        trace := trace + [Sent(ChunkFrame(text))];
        if !rotationCommitted {
          rotationCommitted := true;
          CommitRotation();
        }
      case Done(reply, mode) =>
        sawTerminal := true;
        trace := trace + [Persisted(reply, mode)];
        trace := trace + [Recorded];
        trace := trace + [Sent(DoneFrame(mode))];
      case Recovered(reply, mode) =>
        sawTerminal := true;
        trace := trace + [Persisted(reply, mode)];
        trace := trace + [Recorded];
        if !rotationCommitted {
          rotationCommitted := true;
          CommitRotation();
        }
        trace := trace + [Sent(AbortFrame(reply, mode))];
      case Abort =>
        sawTerminal := true;
        trace := trace + [Persisted(fb.reply, fb.mode)];
        trace := trace + [Recorded];
        if !rotationCommitted {
          rotationCommitted := true;
          CommitRotation();
        }
        trace := trace + [Sent(AbortFrame(fb.reply, fb.mode))];
    }

    /** The generator run to its end. */
    method Generate(events: seq<StreamEvent>)
      requires trace == [] && !rotationCommitted && !sawTerminal
      modifies this
      ensures trace == Trace(events, pending, fb)
    {
      for i := 0 to |events|
        invariant trace == LoopTrace(events[..i], pending, fb)
        invariant rotationCommitted == Commits(events[..i])
        invariant sawTerminal == (TerminalCount(events[..i]) > 0)
      {
        PrefixGrows(events, i, pending, fb);
        Handle(events[i]);
      }
      assert events[..|events|] == events;
      if !sawTerminal {
        trace := trace + [Persisted(fb.reply, fb.mode)];
        trace := trace + [Recorded];
        trace := trace + [Sent(AbortFrame(fb.reply, fb.mode))];
      }
    }
  }

  // ------------------------------------------------------------------ exactly once

  datatype Kind = Save | Count | Rotate | Partial | Terminal

  function KindOf(e: Effect): Kind {
    match e
    case Persisted(_, _) => Save
    case Recorded => Count
    case Committed => Rotate
    case Sent(frame) => if frame.ChunkFrame? then Partial else Terminal
  }

  function Kinds(t: seq<Effect>): (kinds: seq<Kind>)
    ensures |kinds| == |t| && forall i :: 0 <= i < |t| ==> kinds[i] == KindOf(t[i])
  {
    seq(|t|, i requires 0 <= i < |t| => KindOf(t[i]))
  }

  /** How often each kind of thing was done. */
  function Total(t: seq<Effect>): multiset<Kind> { multiset(Kinds(t)) }

  /** Chunks, and then at most one terminal event: what the pipeline promises. */
  predicate WellFormed(events: seq<StreamEvent>) {
    forall i :: 0 <= i < |events| - 1 ==> events[i].Chunk?
  }

  lemma TotalAdds(a: seq<Effect>, b: seq<Effect>)
    ensures Total(a + b) == Total(a) + Total(b)
  {
    assert Kinds(a + b) == Kinds(a) + Kinds(b);
  }

  lemma TotalOfCommit(pending: bool)
    ensures Total(Commit(pending)) == if pending then multiset{Rotate} else multiset{}
  {
    assert Kinds([Committed]) == [Rotate];
  }

  lemma TotalOfEnding(saved: Effect, commit: seq<Effect>, last: Effect)
    requires saved.Persisted? && KindOf(last) == Terminal
    ensures Total([saved, Recorded] + commit + [last]) == multiset{Save, Count, Terminal} + Total(commit)
  {
    assert Kinds([saved, Recorded] + commit + [last]) == [Save, Count] + Kinds(commit) + [Terminal];
  }

  lemma TotalOfPlainEnding(saved: Effect, last: Effect)
    requires saved.Persisted? && KindOf(last) == Terminal
    ensures Total([saved, Recorded, last]) == multiset{Save, Count, Terminal}
  {
    assert Kinds([saved, Recorded, last]) == [Save, Count, Terminal];
  }

  lemma TotalOfChunk(text: string)
    ensures Total([Sent(ChunkFrame(text))]) == multiset{Partial}
  {
    assert Kinds([Sent(ChunkFrame(text))]) == [Partial];
  }

  /** What one event contributes. */
  function Contribution(e: StreamEvent, committed: bool, pending: bool): multiset<Kind> {
    (if IsTerminal(e) then multiset{Save, Count, Terminal} else multiset{Partial})
    + if pending && !committed && !e.Done? then multiset{Rotate} else multiset{}
  }

  lemma EffectTotal(e: StreamEvent, committed: bool, pending: bool, fb: Fallback)
    ensures Total(EffectsOf(e, committed, pending, fb)) == Contribution(e, committed, pending)
  {
    var commit := if committed then [] else Commit(pending);
    TotalOfCommit(pending);
    match e
    case Chunk(text) =>
      TotalAdds([Sent(ChunkFrame(text))], commit);
      TotalOfChunk(text);
    case Done(reply, mode) => TotalOfPlainEnding(Persisted(reply, mode), Sent(DoneFrame(mode)));
    case Recovered(reply, mode) => TotalOfEnding(Persisted(reply, mode), commit, Sent(AbortFrame(reply, mode)));
    case Abort => TotalOfEnding(Persisted(fb.reply, fb.mode), commit, Sent(AbortFrame(fb.reply, fb.mode)));
  }

  /** The effects of one event are yielded last, but for a rotation committed after its chunk. */
  lemma OnlyChunksYieldEarly(e: StreamEvent, committed: bool, pending: bool, fb: Fallback, k: nat)
    requires var t := EffectsOf(e, committed, pending, fb); 0 < k <= |t| && t[k - 1].Sent?
    ensures var t := EffectsOf(e, committed, pending, fb);
      t[..k] == t || (e.Chunk? && t[..k] == [Sent(ChunkFrame(e.text))])
  {
  }

  /** n terminal events and a rotation or none: the counts that go together. */
  predicate Counted(total: multiset<Kind>, n: nat, rotations: nat) {
    total[Save] == total[Count] == total[Terminal] == n && total[Rotate] == rotations
  }

  lemma CountsGrow(a: seq<Effect>, b: seq<Effect>, n: nat, e: StreamEvent, committed: bool, pending: bool)
    requires Counted(Total(a), n, One(pending && committed))
    requires Total(b) == Contribution(e, committed, pending)
    ensures Counted(Total(a + b), n + One(IsTerminal(e)), One(pending && (committed || !e.Done?)))
  {
    TotalAdds(a, b);
  }

  /** Totals of the loop, for any events: one of each a terminal event, and one rotation at most. */
  lemma {:induction false} LoopTotal(events: seq<StreamEvent>, pending: bool, fb: Fallback)
    ensures Counted(Total(LoopTrace(events, pending, fb)), TerminalCount(events), One(pending && Commits(events)))
  {
    if events == [] {
      assert Kinds([]) == [];
    } else {
      var before, e := events[..|events| - 1], events[|events| - 1];
      LoopTotal(before, pending, fb);
      var a, b := LoopTrace(before, pending, fb), EffectsOf(e, Commits(before), pending, fb);
      EffectTotal(e, Commits(before), pending, fb);
      CountsGrow(a, b, TerminalCount(before), e, Commits(before), pending);
    }
  }

  lemma {:induction false} OneTerminalAtMost(events: seq<StreamEvent>)
    requires WellFormed(events)
    ensures TerminalCount(events) == One(events != [] && IsTerminal(events[|events| - 1]))
    ensures Commits(events) <==> events != [] && !events[0].Done?
  {
    if |events| > 1 {
      var before := events[..|events| - 1];
      assert forall i :: 0 <= i < |before| ==> before[i] == events[i] && before[i].Chunk?;
      OneTerminalAtMost(before);
    }
  }

  lemma TailGrows(a: seq<Effect>, b: seq<Effect>, n: nat, rotations: nat)
    requires Counted(Total(a), n, rotations) && n <= 1
    requires Total(b) == if n > 0 then multiset{} else multiset{Save, Count, Terminal}
    ensures Counted(Total(a + b), 1, rotations)
  {
    TotalAdds(a, b);
  }

  lemma TailTotal(events: seq<StreamEvent>, fb: Fallback)
    ensures Total(TailTrace(events, fb)) ==
      if TerminalCount(events) > 0 then multiset{} else multiset{Save, Count, Terminal}
  {
    if TerminalCount(events) > 0 {
      assert Kinds([]) == [];
    } else {
      TotalOfPlainEnding(Persisted(fb.reply, fb.mode), Sent(AbortFrame(fb.reply, fb.mode)));
    }
  }

  /**
    A stream run to its end: persisted once, counted once, one terminal frame; and the
    rotation, if one is pending, committed once unless the stream was a bare Done or empty.
   */
  lemma CompletesExactlyOnce(events: seq<StreamEvent>, pending: bool, fb: Fallback)
    requires WellFormed(events)
    ensures Counted(Total(Trace(events, pending, fb)), 1, One(pending && events != [] && !events[0].Done?))
  {
    LoopTotal(events, pending, fb);
    OneTerminalAtMost(events);
    TailTotal(events, fb);
    TailGrows(LoopTrace(events, pending, fb), TailTrace(events, fb), TerminalCount(events),
              One(pending && Commits(events)));
  }

  /** What the reply pipeline really sends: chunks, one terminal event, and no Done before a chunk. */
  predicate Produced(events: seq<StreamEvent>) {
    && WellFormed(events) && events != [] && IsTerminal(events[|events| - 1])
    && (events[|events| - 1].Done? ==> |events| > 1)
  }

  /** Then a rotation that is pending is committed, exactly once. */
  lemma ProducedCommitsOnce(events: seq<StreamEvent>, pending: bool, fb: Fallback)
    requires Produced(events)
    ensures Counted(Total(Trace(events, pending, fb)), 1, One(pending))
  {
    CompletesExactlyOnce(events, pending, fb);
    assert |events| > 1 ==> events[0].Chunk?;
  }

  /** Saved as often as counted and as terminal frames sent, n times at most, and one rotation at most. */
  predicate InStep(total: multiset<Kind>, n: nat) {
    total[Save] == total[Count] == total[Terminal] <= n && total[Rotate] <= 1
  }

  /** One event's effects up to a yield: all of them, but perhaps for the rotation. */
  predicate Partway(total: multiset<Kind>, e: StreamEvent, committed: bool, pending: bool) {
    && total[Save] == total[Count] == total[Terminal] == One(IsTerminal(e))
    && total[Rotate] <= One(pending && !committed)
  }

  /** Within one event's effects, the part up to a yield. */
  lemma YieldTotal(e: StreamEvent, committed: bool, pending: bool, fb: Fallback, k: nat)
    requires var t := EffectsOf(e, committed, pending, fb); 0 < k <= |t| && t[k - 1].Sent?
    ensures Partway(Total(EffectsOf(e, committed, pending, fb)[..k]), e, committed, pending)
  {
    OnlyChunksYieldEarly(e, committed, pending, fb, k);
    EffectTotal(e, committed, pending, fb);
    if e.Chunk? { TotalOfChunk(e.text); }
  }

  lemma YieldGrows(a: seq<Effect>, b: seq<Effect>, n: nat, e: StreamEvent, committed: bool, pending: bool)
    requires Counted(Total(a), n, One(pending && committed))
    requires Partway(Total(b), e, committed, pending)
    ensures InStep(Total(a + b), n + One(IsTerminal(e)))
  {
    TotalAdds(a, b);
  }

  lemma CutAppend(a: seq<Effect>, b: seq<Effect>, k: nat)
    requires 0 < k <= |a + b|
    ensures k <= |a| ==> (a + b)[..k] == a[..k] && (a + b)[k - 1] == a[k - 1]
    ensures k > |a| ==> (a + b)[..k] == a + b[..k - |a|] && (a + b)[k - 1] == b[k - |a| - 1]
  {
  }

  lemma EventYields(a: seq<Effect>, b: seq<Effect>, n: nat, e: StreamEvent, committed: bool, pending: bool, k: nat)
    requires Counted(Total(a), n, One(pending && committed)) && |a| < k <= |a + b|
    requires Partway(Total(b[..k - |a|]), e, committed, pending)
    ensures InStep(Total((a + b)[..k]), n + One(IsTerminal(e)))
  {
    CutAppend(a, b, k);
    YieldGrows(a, b[..k - |a|], n, e, committed, pending);
  }

  lemma LoopUnfolds(events: seq<StreamEvent>, pending: bool, fb: Fallback)
    requires events != []
    ensures var before, e := events[..|events| - 1], events[|events| - 1];
      LoopTrace(events, pending, fb) == LoopTrace(before, pending, fb) + EffectsOf(e, Commits(before), pending, fb)
  {
  }

  /** A yield within the effects of the last event. */
  lemma LastYields(before: seq<StreamEvent>, e: StreamEvent, pending: bool, fb: Fallback, k: nat)
    requires var a, b := LoopTrace(before, pending, fb), EffectsOf(e, Commits(before), pending, fb);
      |a| < k <= |a + b| && (a + b)[k - 1].Sent?
    ensures InStep(Total((LoopTrace(before, pending, fb) + EffectsOf(e, Commits(before), pending, fb))[..k]),
                   TerminalCount(before) + One(IsTerminal(e)))
  {
    var a, b := LoopTrace(before, pending, fb), EffectsOf(e, Commits(before), pending, fb);
    CutAppend(a, b, k);
    LoopTotal(before, pending, fb);
    YieldTotal(e, Commits(before), pending, fb, k - |a|);
    EventYields(a, b, TerminalCount(before), e, Commits(before), pending, k);
  }

  /** At every yield of the loop, so wherever a client disconnects, the counts are in step. */
  lemma {:induction false} LoopYieldsInStep(events: seq<StreamEvent>, pending: bool, fb: Fallback, k: nat)
    requires 0 < k <= |LoopTrace(events, pending, fb)| && LoopTrace(events, pending, fb)[k - 1].Sent?
    ensures InStep(Total(LoopTrace(events, pending, fb)[..k]), TerminalCount(events))
  {
    var before, e := events[..|events| - 1], events[|events| - 1];
    LoopUnfolds(events, pending, fb);
    var a := LoopTrace(before, pending, fb);
    if k <= |a| {
      CutAppend(a, EffectsOf(e, Commits(before), pending, fb), k);
      LoopYieldsInStep(before, pending, fb, k);
    } else {
      LastYields(before, e, pending, fb, k);
    }
  }

  /** The same for the whole generator: at no yield is anything saved twice or out of step. */
  lemma YieldsInStep(events: seq<StreamEvent>, pending: bool, fb: Fallback, k: nat)
    requires WellFormed(events)
    requires var t := Trace(events, pending, fb); 0 < k <= |t| && t[k - 1].Sent?
    ensures InStep(Total(Trace(events, pending, fb)[..k]), 1)
  {
    var a, b := LoopTrace(events, pending, fb), TailTrace(events, fb);
    OneTerminalAtMost(events);
    if k <= |a| {
      assert (a + b)[..k] == a[..k];
      LoopYieldsInStep(events, pending, fb, k);
    } else {
      assert k == |a| + 3;
      assert (a + b)[..k] == a + b;
      CompletesExactlyOnce(events, pending, fb);
    }
  }

  lemma PartRotatesLess(t: seq<Effect>, k: nat)
    requires k <= |t|
    ensures Total(t[..k])[Rotate] <= Total(t)[Rotate]
  {
    assert t == t[..k] + t[k..];
    TotalAdds(t[..k], t[k..]);
  }

  lemma TraceRotations(events: seq<StreamEvent>, pending: bool, fb: Fallback)
    ensures Total(Trace(events, pending, fb))[Rotate] == One(pending && Commits(events))
  {
    LoopTotal(events, pending, fb);
    TailTotal(events, fb);
    TotalAdds(LoopTrace(events, pending, fb), TailTrace(events, fb));
  }

  /** However far the generator got, it has committed one rotation at most, and none that was not pending. */
  lemma RotatesAtMostOnce(events: seq<StreamEvent>, pending: bool, fb: Fallback, k: nat)
    requires k <= |Trace(events, pending, fb)|
    ensures Total(Trace(events, pending, fb)[..k])[Rotate] <= One(pending)
  {
    PartRotatesLess(Trace(events, pending, fb), k);
    TraceRotations(events, pending, fb);
  }

  // ---------------------------------------------------------- who owns the rotation

  /** The part of the request's state that the route and the middleware share. */
  class RequestState {
    var pendingRotation: bool
    /** Rotations committed for this request, by whoever did it. */
    var committed: nat
    /** The response carries the new token. */
    var header: bool

    constructor (pending: bool)
      ensures pendingRotation == pending && committed == 0 && !header
    {
      pendingRotation, committed, header := pending, 0, false;
    }

    /** commit_pending_auth_rotation, after the route has returned. */
    method AfterResponse(status: int, rotationSucceeds: bool)
      modifies this
      ensures committed == old(committed) + (if old(pendingRotation) && 200 <= status < 300 && rotationSucceeds then 1 else 0)
      ensures header == (old(header) || (old(pendingRotation) && 200 <= status < 300 && rotationSucceeds))
      ensures pendingRotation == old(pendingRotation)
    {
      if !pendingRotation { return; }
      if !(200 <= status < 300) { return; }
      if !rotationSucceeds { return; }
      committed := committed + 1;
      header := true;
    }

    /** The start of chat_stream: take the rotation away from the middleware, promise it in the header. */
    method TakeOwnership() returns (pending: bool)
      modifies this
      ensures pending == old(pendingRotation) && !pendingRotation
      ensures committed == old(committed) && header == (old(header) || pending)
    {
      pending := pendingRotation;
      pendingRotation := false;
      header := header || pending;
    }

    /** A whole streamed request, cut off after `sent` effects: the middleware never commits as well. */
    method Stream(events: seq<StreamEvent>, fb: Fallback, status: int, rotationSucceeds: bool, sent: nat)
      requires committed == 0 && !header
      modifies this
      ensures header == old(pendingRotation)
      ensures var t := Trace(events, old(pendingRotation), fb);
        committed == Total(if sent < |t| then t[..sent] else t)[Rotate]
      ensures committed <= One(old(pendingRotation))
      ensures Produced(events) && sent >= |Trace(events, old(pendingRotation), fb)| ==> committed == One(old(pendingRotation))
    {
      var pending := TakeOwnership();
      AfterResponse(status, rotationSucceeds);
      var generator := new Generator(pending, fb);
      generator.Generate(events);
      var t := generator.trace;
      committed := committed + Total(if sent < |t| then t[..sent] else t)[Rotate];
      RotatesAtMostOnce(events, pending, fb, if sent < |t| then sent else |t|);
      assert t[..|t|] == t;
      if Produced(events) { ProducedCommitsOnce(events, pending, fb); }
    }
  }
}
