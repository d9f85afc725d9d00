// Replaying an aggregated stream of text leaves the trace the live stream left,
// and a streamed tool call with arguments does not. Also what a stream's frames
// come to, live and aggregated.
module StreamReplay {
  import opened Wrappers
  import opened Frames
  import opened Aggregator
  import opened Normalizer

  /** A streamed piece of an answer: at most one choice, no finished message, not done. */
  predicate StreamChunk(r: Response) {
    && r.kind.Chunk? && r.error.None? && !r.done && |r.choices| <= 1
    && forall ch :: ch in r.choices ==> ch.message.content == "" && ch.message.toolCalls == []
  }

  /** A piece of text alone. */
  predicate TextChunk(r: Response) {
    StreamChunk(r) && DeltaOf(r).toolCalls == []
  }

  function DeltaOf(r: Response): Message {
    if r.choices == [] then NO_MESSAGE else r.choices[0].delta
  }

  /** The frame that ends a stream, with one choice and no delta text of its own. */
  predicate FinalFrame(r: Response) {
    r.kind.Completion? && r.error.None? && |r.choices| == 1 && r.choices[0].delta.content == ""
  }

  function DeltaText(chunks: seq<Response>): string {
    if chunks == [] then ""
    else DeltaText(chunks[..|chunks| - 1]) + DeltaOf(chunks[|chunks| - 1]).content
  }

  /** The tool calls, or pieces of them, that the deltas carry. */
  function StreamedCalls(chunks: seq<Response>): seq<ToolCall> {
    if chunks == [] then []
    else StreamedCalls(chunks[..|chunks| - 1]) + DeltaOf(chunks[|chunks| - 1]).toolCalls
  }

  function LastUsage(chunks: seq<Response>): Option<Usage> {
    if chunks == [] then None
    else if chunks[|chunks| - 1].usage.Some? then chunks[|chunks| - 1].usage
    else LastUsage(chunks[..|chunks| - 1])
  }

  lemma {:induction false} DeltaCallsConcat(st: State, a: seq<ToolCall>, b: seq<ToolCall>)
    ensures DeltaCalls(st, a + b) == Then(DeltaCalls(st, a), DeltaCalls(DeltaCalls(st, a).st, b))
  {
    if b == [] {
      assert a + b == a;
    } else {
      assert (a + b)[..|a + b| - 1] == a + b[..|b| - 1];
      DeltaCallsConcat(st, a, b[..|b| - 1]);
    }
  }

  /** Delta calls neither see nor touch the text and usage of the call. */
  lemma {:induction false} DeltaCallsIgnore(st: State, tcs: seq<ToolCall>, u: Option<Usage>, text: string)
    ensures DeltaCalls(SetUsage(st, u).(content := text), tcs)
         == Out(SetUsage(DeltaCalls(st, tcs).st, u).(content := text), DeltaCalls(st, tcs).events)
    ensures DeltaCalls(st, tcs).st.inModel == st.inModel
  {
    if tcs != [] {
      DeltaCallsIgnore(st, tcs[..|tcs| - 1], u, text);
    }
  }

  /** What a live normalizer holds after some chunks: one open call, its text and its tools. */
  lemma {:induction false} ChunksHandled(st: State, chunks: seq<Response>)
    requires !st.inModel && st.content == ""
    requires chunks != [] && forall r :: r in chunks ==> StreamChunk(r)
    ensures var begun := StartModel(st, chunks[0].model);
            var calls := DeltaCalls(begun.st, StreamedCalls(chunks));
            HandleAll(st, chunks)
            == Out(SetUsage(calls.st, LastUsage(chunks)).(content := DeltaText(chunks)), begun.events + calls.events)
  {
    var front, last := chunks[..|chunks| - 1], chunks[|chunks| - 1];
    assert last in chunks && forall r :: r in front ==> r in chunks;
    var begun := StartModel(st, chunks[0].model);
    if front == [] {
      FirstChunkHandled(st, last);
      assert chunks == [last];
    } else {
      ChunksHandled(st, front);
      DeltaCallsIgnore(begun.st, StreamedCalls(front), None, "");
      NextChunkHandled(DeltaCalls(begun.st, StreamedCalls(front)), LastUsage(front), DeltaText(front), last);
      DeltaCallsConcat(begun.st, StreamedCalls(front), DeltaOf(last).toolCalls);
      ThenAssociates(begun.events, DeltaCalls(begun.st, StreamedCalls(front)).events,
                     DeltaCalls(DeltaCalls(begun.st, StreamedCalls(front)).st, DeltaOf(last).toolCalls).events);
    }
  }

  lemma FirstChunkHandled(st: State, r: Response)
    requires !st.inModel && st.content == "" && StreamChunk(r)
    ensures var begun := StartModel(st, r.model);
            var calls := DeltaCalls(begun.st, StreamedCalls([r]));
            HandleAll(st, [r])
            == Out(SetUsage(calls.st, LastUsage([r])).(content := DeltaText([r])), begun.events + calls.events)
  {
    var begun := StartModel(st, r.model);
    assert [r][..0] == [] && StreamedCalls([]) == [] && DeltaText([]) == "" && LastUsage([]) == None;
    assert StreamedCalls([r]) == DeltaOf(r).toolCalls && DeltaText([r]) == DeltaOf(r).content;
    ChunkHandled(st, r);
    DeltaCallsIgnore(begun.st, DeltaOf(r).toolCalls, None, DeltaOf(r).content);
    assert HandleAll(st, []) == Idle(st) && [] + Handle(st, r).events == Handle(st, r).events;
    assert "" + DeltaOf(r).content == DeltaOf(r).content;
  }

  /** A chunk in an open call: its tools start, its text and usage are taken. */
  lemma NextChunkHandled(calls: Out, u: Option<Usage>, text: string, r: Response)
    requires calls.st.inModel && StreamChunk(r)
    ensures var more := DeltaCalls(calls.st, DeltaOf(r).toolCalls);
            Handle(SetUsage(calls.st, u).(content := text), r)
            == Out(SetUsage(more.st, Later(u, r.usage)).(content := text + DeltaOf(r).content), more.events)
  {
    var mid := SetUsage(calls.st, u).(content := text);
    ChunkHandled(mid, r);
    assert StartModel(mid, r.model) == Idle(mid);
    DeltaCallsIgnore(calls.st, DeltaOf(r).toolCalls, u, text + DeltaOf(r).content);
    var more := DeltaCalls(calls.st, DeltaOf(r).toolCalls);
    assert mid.(content := text + DeltaOf(r).content) == SetUsage(calls.st, u).(content := text + DeltaOf(r).content);
    assert [] + more.events == more.events;
  }

  lemma ChunkHandled(st: State, r: Response)
    requires StreamChunk(r)
    ensures var begun := StartModel(st, r.model);
            var calls := DeltaCalls(begun.st.(content := st.content + DeltaOf(r).content), DeltaOf(r).toolCalls);
            Handle(st, r) == Out(SetUsage(calls.st, r.usage), begun.events + calls.events)
  {
    var begun := StartModel(st, r.model);
    if r.choices == [] {
      assert st.content + "" == st.content;
      assert begun.st.(content := st.content) == begun.st;
      assert DeltaCalls(begun.st, []) == Idle(begun.st);
    } else {
      assert r.choices[..0] == [];
      assert DeltaChoices(begun.st, r.choices) == Then(Idle(begun.st), DeltaChoice(begun.st, r.choices[0]));
      assert [] + DeltaChoice(begun.st, r.choices[0]).events == DeltaChoice(begun.st, r.choices[0]).events;
    }
  }

  lemma {:induction false} NoStreamedCalls(chunks: seq<Response>)
    requires forall r :: r in chunks ==> TextChunk(r)
    ensures StreamedCalls(chunks) == []
  {
    if chunks != [] {
      assert chunks[|chunks| - 1] in chunks && forall r :: r in chunks[..|chunks| - 1] ==> r in chunks;
      NoStreamedCalls(chunks[..|chunks| - 1]);
    }
  }

  /** The first model name that is not empty. */
  function FirstModel(frames: seq<Response>): string {
    if frames == [] then ""
    else
      var before := FirstModel(frames[..|frames| - 1]);
      if before != "" then before else frames[|frames| - 1].model
  }

  lemma {:induction false} FirstModelIsFirst(frames: seq<Response>)
    requires frames != [] && frames[0].model != ""
    ensures FirstModel(frames) == frames[0].model
  {
    if |frames| > 1 {
      FirstModelIsFirst(frames[..|frames| - 1]);
    } else {
      assert frames[..0] == [];
    }
  }

  /** What the aggregator holds after the same chunks. */
  lemma {:induction false} ChunksAggregated(chunks: seq<Response>)
    requires forall r :: r in chunks ==> StreamChunk(r)
    ensures AddFrames(EMPTY, chunks)
         == Aggregate(DeltaText(chunks), DeltaText(chunks) != "", LastUsage(chunks), [], FirstModel(chunks))
  {
    if chunks != [] {
      var last := chunks[|chunks| - 1];
      var front := chunks[..|chunks| - 1];
      assert last in chunks && forall r :: r in front ==> r in chunks;
      ChunksAggregated(front);
      var h := AddHeader(AddFrames(EMPTY, front), last);
      if last.choices != [] {
        assert last.choices[0] in last.choices && last.choices[..0] == [];
        assert AddChoices(h, last.choices) == AddChoice(h, last.choices[0]);
      }
    }
  }

  lemma FinalAggregated(a: Aggregate, r: Response)
    requires FinalFrame(r)
    ensures AddFrame(a, r) == AddChoice(AddHeader(a, r), r.choices[0])
  {
    assert r.choices[..|r.choices| - 1] == [];
    assert AddChoices(AddHeader(a, r), []) == AddHeader(a, r);
  }

  /** A completion frame of one choice, handled by a normalizer. */
  lemma CompletionHandled(st: State, r: Response)
    requires r.kind.Completion? && r.error.None? && |r.choices| == 1
    ensures var begun := StartModel(st, r.model);
            var text := if st.inModel then "" else r.choices[0].message.content;
            var calls := FinalCalls(begun.st.(content := begun.st.content + text), r.choices[0].message.toolCalls);
            var o := Then(begun, calls);
            Handle(st, r) == Then(Out(SetUsage(o.st, r.usage), o.events), EndModel(SetUsage(o.st, r.usage)))
  {
    var begun := StartModel(st, r.model);
    var text := if st.inModel then "" else r.choices[0].message.content;
    var mid := begun.st.(content := begun.st.content + text);
    assert r.choices[..0] == [];
    assert MessageText(r.choices) == r.choices[0].message.content;
    assert FinalChoices(mid, r.choices) == Then(Idle(mid), FinalCalls(mid, r.choices[0].message.toolCalls));
    assert [] + FinalCalls(mid, r.choices[0].message.toolCalls).events
        == FinalCalls(mid, r.choices[0].message.toolCalls).events;
  }

  /** Usage reported before the tool calls or after them ends in the same state. */
  lemma {:induction false} CallsIgnoreUsage(st: State, tcs: seq<ToolCall>, u: Option<Usage>)
    ensures FinalCalls(SetUsage(st, u), tcs)
         == Out(SetUsage(FinalCalls(st, tcs).st, u), FinalCalls(st, tcs).events)
  {
    if tcs != [] {
      CallsIgnoreUsage(st, tcs[..|tcs| - 1], u);
    }
  }

  /** A whole call: begun, given its text and tool calls, and ended with its usage. */
  function Call(st: State, model: string, text: string, tcs: seq<ToolCall>, usage: Option<Usage>): Out {
    var begun := StartModel(st, model);
    var calls := FinalCalls(begun.st.(content := text), tcs);
    Then(Then(begun, Out(SetUsage(calls.st, usage), calls.events)), EndModel(SetUsage(calls.st, usage)))
  }

  function StoredResponse(model: string, text: string, tcs: seq<ToolCall>, usage: Option<Usage>): Response {
    Response(Completion, model, [Choice(NO_MESSAGE, Message(text, tcs, ""))], usage, true, None)
  }

  function StreamUsage(chunks: seq<Response>, last: Response): Option<Usage> {
    Later(LastUsage(chunks), last.usage)
  }

  /** A completion met by an idle normalizer is a whole call. */
  lemma CompletionIsCall(st: State, r: Response)
    requires !st.inModel && st.content == ""
    requires r.kind.Completion? && r.error.None? && |r.choices| == 1
    ensures HandleAll(st, [r]) == Call(st, r.model, r.choices[0].message.content, r.choices[0].message.toolCalls, r.usage)
  {
    var msg := r.choices[0].message;
    CompletionHandled(st, r);
    assert [r][..0] == [];
    assert HandleAll(st, [r]) == Then(Idle(st), Handle(st, r));
    assert [] + Handle(st, r).events == Handle(st, r).events;
    assert StartModel(st, r.model).st.content + msg.content == msg.content;
  }

  function Later(u: Option<Usage>, last: Option<Usage>): Option<Usage> {
    if last.Some? then last else u
  }

  /** The final frame of an open call adds no text, starts its tools and ends it. */
  lemma FinalFrameEnds(ready: State, u: Option<Usage>, last: Response)
    requires ready.inModel && FinalFrame(last)
    ensures var calls := FinalCalls(ready, last.choices[0].message.toolCalls);
            var done := SetUsage(calls.st, Later(u, last.usage));
            Handle(SetUsage(ready, u), last) == Then(Out(done, calls.events), EndModel(done))
  {
    var st := SetUsage(ready, u);
    var tcs := last.choices[0].message.toolCalls;
    CompletionHandled(st, last);
    assert st.content + "" == st.content;
    assert StartModel(st, last.model) == Idle(st);
    CallsIgnoreUsage(ready, tcs, u);
    var calls := FinalCalls(ready, tcs);
    assert Then(Idle(st), FinalCalls(st, tcs)) == Out(SetUsage(calls.st, u), calls.events);
    assert SetUsage(SetUsage(calls.st, u), last.usage) == SetUsage(calls.st, Later(u, last.usage));
  }

  /** A text stream and its final frame, met by an idle normalizer, are a whole call. */
  lemma StreamIsCall(st: State, chunks: seq<Response>, last: Response)
    requires !st.inModel && st.content == ""
    requires forall r :: r in chunks ==> TextChunk(r)
    requires chunks != [] && FinalFrame(last)
    ensures HandleAll(st, chunks + [last])
         == Call(st, chunks[0].model, DeltaText(chunks), last.choices[0].message.toolCalls, StreamUsage(chunks, last))
  {
    var all := chunks + [last];
    assert all[..|all| - 1] == chunks && all[|all| - 1] == last;
    var begun := StartModel(st, chunks[0].model);
    var ready := begun.st.(content := DeltaText(chunks));
    NoStreamedCalls(chunks);
    ChunksHandled(st, chunks);
    var o := HandleAll(st, chunks);
    assert DeltaCalls(begun.st, []) == Idle(begun.st) && begun.events + [] == begun.events;
    assert o == Out(SetUsage(ready, LastUsage(chunks)), begun.events);
    assert HandleAll(st, all) == Then(o, Handle(o.st, last));
    FinalFrameEnds(ready, LastUsage(chunks), last);
    ThenAssociates(begun.events, FinalCalls(ready, last.choices[0].message.toolCalls).events,
                   EndModel(SetUsage(FinalCalls(ready, last.choices[0].message.toolCalls).st, StreamUsage(chunks, last))).events);
  }

  lemma ThenAssociates(a: seq<RunEvent>, b: seq<RunEvent>, c: seq<RunEvent>)
    ensures a + (b + c) == (a + b) + c
  {
  }

  /** What is stored of a call, unless there is nothing to store. */
  function Kept(model: string, text: string, tcs: seq<ToolCall>, usage: Option<Usage>): Option<Response> {
    if model == "" && text == "" && tcs == [] then None else Some(StoredResponse(model, text, tcs, usage))
  }

  /** What is stored for a stream that ends in a completion: its text only when the chunks had none. */
  lemma StreamKept(chunks: seq<Response>, last: Response)
    requires forall r :: r in chunks ==> StreamChunk(r)
    requires FinalFrame(last)
    ensures var msg := last.choices[0].message;
            FinalOf(AddFrames(EMPTY, chunks + [last]))
            == Kept(FirstModel(chunks + [last]), if DeltaText(chunks) != "" then DeltaText(chunks) else msg.content,
                    msg.toolCalls, StreamUsage(chunks, last))
  {
    var all := chunks + [last];
    var msg := last.choices[0].message;
    assert all[..|all| - 1] == chunks && all[|all| - 1] == last;
    ChunksAggregated(chunks);
    var a := AddFrames(EMPTY, chunks);
    FinalAggregated(a, last);
    assert AddFrames(EMPTY, all) == AddFrame(a, last);
    assert "" + msg.content == msg.content;
  }

  /** What is stored for a stream whose completion repeats its text. */
  lemma StreamStored(chunks: seq<Response>, last: Response)
    requires forall r :: r in chunks ==> StreamChunk(r)
    requires FinalFrame(last)
    requires chunks != [] ==> last.choices[0].message.content == DeltaText(chunks)
    requires (chunks + [last])[0].model != ""
    ensures FinalOf(AddFrames(EMPTY, chunks + [last]))
         == Some(StoredResponse((chunks + [last])[0].model, last.choices[0].message.content,
                                last.choices[0].message.toolCalls, StreamUsage(chunks, last)))
  {
    StreamKept(chunks, last);
    FirstModelIsFirst(chunks + [last]);
  }

  /**
   * A text stream ended by a completion frame that repeats the streamed text:
   * the aggregated response, replayed, leaves the events and the state the live
   * stream left. A stream of the completion frame alone is the non-streaming case.
   */
  lemma {:induction false} ReplayedStreamMatchesLive(st: State, chunks: seq<Response>, last: Response)
    requires !st.inModel && st.content == ""
    requires forall r :: r in chunks ==> TextChunk(r)
    requires FinalFrame(last)
    requires chunks != [] ==> last.choices[0].message.content == DeltaText(chunks)
    requires (chunks + [last])[0].model != ""
    ensures var stored := FinalOf(AddFrames(EMPTY, chunks + [last]));
            stored.Some? && HandleAll(st, [stored.value]) == HandleAll(st, chunks + [last])
  {
    var all, msg := chunks + [last], last.choices[0].message;
    StreamStored(chunks, last);
    var stored := StoredResponse(all[0].model, msg.content, msg.toolCalls, StreamUsage(chunks, last));
    CompletionIsCall(st, stored);
    if chunks == [] {
      assert all == [last];
      CompletionIsCall(st, last);
    } else {
      assert all[0] == chunks[0];
      StreamIsCall(st, chunks, last);
    }
  }

  /** One streamed tool call, and the frame that repeats it. */
  function CallChunk(call: ToolCall, model: string): Response {
    Response(Chunk, model, [Choice(Message("", [call], ""), NO_MESSAGE)], None, false, None)
  }

  function CallFinal(call: ToolCall, model: string): Response {
    StoredResponse(model, "", [call], None)
  }

  lemma CallStreamStored(call: ToolCall, model: string)
    requires model != ""
    ensures FinalOf(AddFrames(EMPTY, [CallChunk(call, model), CallFinal(call, model)])) == Some(CallFinal(call, model))
  {
    var first, last := CallChunk(call, model), CallFinal(call, model);
    assert [first, last][..1] == [first] && [first][..0] == [];
    var h1 := AddHeader(EMPTY, first);
    assert first.choices[..0] == [] && |first.choices| == 1;
    assert AddChoices(h1, first.choices[..0]) == h1;
    assert AddChoices(h1, first.choices) == AddChoice(h1, first.choices[0]);
    assert AddFrame(EMPTY, first) == h1;
    assert AddFrames(EMPTY, [first]) == h1;
    FinalAggregated(h1, last);
    assert AddFrames(EMPTY, [first, last]) == AddFrame(h1, last);
  }

  /**
   * Where tool calls are streamed as deltas the live trace starts the tool
   * without arguments, while the replayed trace carries them.
   */
  lemma StreamedToolCallDiffers(call: ToolCall, model: string)
    requires call.name != "" && call.args != "" && model != ""
    ensures var frames := [CallChunk(call, model), CallFinal(call, model)];
            var stored := FinalOf(AddFrames(EMPTY, frames));
            stored.Some? && HandleAll(INITIAL, frames).events != HandleAll(INITIAL, [stored.value]).events
  {
    var first, last := CallChunk(call, model), CallFinal(call, model);
    CallStreamStored(call, model);
    CompletionIsCall(INITIAL, last);
    var begun := StartModel(INITIAL, model);
    var ready := begun.st.(content := "");
    assert [call][..0] == [] && [first, last][..1] == [first] && [first][..0] == [] && first.choices[..0] == [];
    assert FinalCalls(ready, [call]) == Then(Idle(ready), FinalCall(ready, call));
    assert HandleAll(INITIAL, [last]).events[1].body == ToolStart(call.name, call.args);
    assert begun.st.(content := begun.st.content + "") == ready;
    assert DeltaCalls(ready, [call]) == Then(Idle(ready), DeltaCall(ready, call));
    assert DeltaChoices(begun.st, first.choices[..0]) == Idle(begun.st);
    assert DeltaChoices(begun.st, first.choices) == Then(Idle(begun.st), DeltaChoice(begun.st, first.choices[0]));
    var o := Handle(INITIAL, first);
    assert o.events[1].body == ToolStart(call.name, "");
    assert HandleAll(INITIAL, [first]) == Then(Idle(INITIAL), o);
    assert HandleAll(INITIAL, [first, last]).events[1] == o.events[1];
  }
}
