// When a replay of the stored response leaves the trace the live stream left:
// the exact condition, for every stream of one-choice frames.
module StreamedTools {
  import opened Wrappers
  import opened Frames
  import opened Aggregator
  import opened Normalizer
  import opened Metrics
  import opened Correlation
  import opened CallUsage
  import opened ToolNames
  import opened StreamReplay

  // ---- The calls a frame starts ----

  /** The calls that carry a name; the other pieces only add arguments. */
  function NamedOf(tcs: seq<ToolCall>): seq<ToolCall> {
    if tcs == [] then []
    else NamedOf(tcs[..|tcs| - 1]) + if tcs[|tcs| - 1].name != "" then [tcs[|tcs| - 1]] else []
  }

  /** What deltas start: the named calls, without arguments. */
  function Blank(tcs: seq<ToolCall>): seq<ToolCall> {
    seq(|tcs|, i requires 0 <= i < |tcs| => tcs[i].(args := ""))
  }

  /** A completion passes over the call. */
  predicate Skipped(tc: ToolCall, seen: set<string>) {
    tc.name == "" || (tc.id != "" && tc.id in seen)
  }

  /** What a completion starts when the ids in seen were announced. */
  function StartedOf(tcs: seq<ToolCall>, seen: set<string>): seq<ToolCall> {
    if tcs == [] then []
    else
      var front, last := tcs[..|tcs| - 1], tcs[|tcs| - 1];
      StartedOf(front, seen) + if Skipped(last, seen + FinalIds(front)) then [] else [last]
  }

  function NamesAfter(names: map<string, string>, tcs: seq<ToolCall>): map<string, string> {
    if tcs == [] then names
    else NamesAfter(names, tcs[..|tcs| - 1])[tcs[|tcs| - 1].id := tcs[|tcs| - 1].name]
  }

  /** Starting these calls in order. */
  function Started(st: State, tcs: seq<ToolCall>): Out {
    Out(st.(toolCalls := st.toolCalls + |tcs|, seqNo := st.seqNo + |tcs|, step := st.step + |tcs|,
            lastToolName := if tcs == [] then st.lastToolName else tcs[|tcs| - 1].name,
            toolNames := NamesAfter(st.toolNames, tcs)),
        seq(|tcs|, i requires 0 <= i < |tcs| =>
              RunEvent(st.seqNo + 1 + i, st.step + 1 + i, ToolStart(tcs[i].name, tcs[i].args))))
  }

  lemma StartedGrows(st: State, tcs: seq<ToolCall>, tc: ToolCall)
    ensures var o := Started(st, tcs);
            Started(st, tcs + [tc]) == Then(o, StartTool(o.st, tc, tc.args))
  {
    assert (tcs + [tc])[..|tcs|] == tcs;
  }

  lemma {:induction false} StartedConcat(st: State, a: seq<ToolCall>, b: seq<ToolCall>)
    ensures Started(st, a + b) == Then(Started(st, a), Started(Started(st, a).st, b))
  {
    if b == [] {
      assert a + b == a;
      assert Started(st, a).events + [] == Started(st, a).events;
    } else {
      var front, last := b[..|b| - 1], b[|b| - 1];
      assert a + b == (a + front) + [last] && b == front + [last];
      StartedConcat(st, a, front);
      StartedGrows(st, a + front, last);
      StartedGrows(Started(st, a).st, front, last);
      ThenAssociates(Started(st, a).events, Started(Started(st, a).st, front).events,
                     StartTool(Started(Started(st, a).st, front).st, last, last.args).events);
    }
  }

  /** Started in order, the two lists leave one trace and the same names. */
  predicate SameStarts(names: map<string, string>, a: seq<ToolCall>, b: seq<ToolCall>) {
    && |a| == |b|
    && (forall i :: 0 <= i < |a| ==> a[i].name == b[i].name && a[i].args == b[i].args)
    && NamesAfter(names, a) == NamesAfter(names, b)
  }

  lemma SameStartsIff(st: State, a: seq<ToolCall>, b: seq<ToolCall>)
    ensures Started(st, a) == Started(st, b) <==> SameStarts(st.toolNames, a, b)
  {
    var x, y := Started(st, a), Started(st, b);
    if x == y {
      assert |x.events| == |a| && |y.events| == |b|;
      forall i | 0 <= i < |a| ensures a[i].name == b[i].name && a[i].args == b[i].args {
        assert x.events[i].body == y.events[i].body;
      }
    }
  }

  /** The state apart from its text and the ids it has seen. */
  function Bare(st: State): State {
    st.(seenToolIDs := {}, content := "")
  }

  /** What was done to the calls, text and seen ids aside. */
  function BareOut(o: Out): Out {
    Out(Bare(o.st), o.events)
  }

  lemma DeltaStarts(st: State, tc: ToolCall)
    ensures BareOut(DeltaCall(st, tc))
         == if tc.name == "" then Idle(Bare(st)) else StartTool(Bare(st), tc.(args := ""), "")
  {
  }

  lemma FinalStarts(st: State, tc: ToolCall)
    ensures BareOut(FinalCall(st, tc))
         == if Skipped(tc, st.seenToolIDs) then Idle(Bare(st)) else StartTool(Bare(st), tc, tc.args)
  {
  }

  /** A further call that starts, or does not. */
  lemma StartedNext(st: State, tcs: seq<ToolCall>, tc: ToolCall, starts: bool, o: Out)
    requires BareOut(o) == Started(Bare(st), tcs)
    ensures var next := if starts then StartTool(Bare(o.st), tc, tc.args) else Idle(Bare(o.st));
            Out(next.st, o.events + next.events) == Started(Bare(st), tcs + if starts then [tc] else [])
  {
    if starts {
      StartedGrows(Bare(st), tcs, tc);
    } else {
      assert tcs + [] == tcs && o.events + [] == o.events;
    }
  }

  lemma {:induction false} DeltasStart(st: State, tcs: seq<ToolCall>)
    ensures BareOut(DeltaCalls(st, tcs)) == Started(Bare(st), Blank(NamedOf(tcs)))
  {
    if tcs != [] {
      var front, last := tcs[..|tcs| - 1], tcs[|tcs| - 1];
      DeltasStart(st, front);
      DeltaStarts(DeltaCalls(st, front).st, last);
      StartedNext(st, Blank(NamedOf(front)), last.(args := ""), last.name != "", DeltaCalls(st, front));
      assert Blank(NamedOf(tcs)) == Blank(NamedOf(front)) + if last.name != "" then [last.(args := "")] else [];
    }
  }

  lemma {:induction false} FinalsStart(st: State, tcs: seq<ToolCall>)
    ensures BareOut(FinalCalls(st, tcs)) == Started(Bare(st), StartedOf(tcs, st.seenToolIDs))
  {
    if tcs != [] {
      var front, last := tcs[..|tcs| - 1], tcs[|tcs| - 1];
      FinalsStart(st, front);
      FinalCallsSeen(st, front);
      FinalStarts(FinalCalls(st, front).st, last);
      StartedNext(st, StartedOf(front, st.seenToolIDs), last, !Skipped(last, st.seenToolIDs + FinalIds(front)),
                  FinalCalls(st, front));
    }
  }

  // ---- Two whole calls ----

  /** A call begun, with what its frames did, and ended. */
  function Whole(begun: Out, calls: Out, usage: Option<Usage>): Out {
    Then(Out(SetUsage(calls.st, usage), begun.events + calls.events), EndModel(SetUsage(calls.st, usage)))
  }

  lemma ClipEmpty(s: string)
    ensures Clip(s) == "" <==> s == ""
  {
  }

  lemma EqualParts(a: seq<RunEvent>, b: seq<RunEvent>, c: seq<RunEvent>, d: seq<RunEvent>)
    requires |b| == |d|
    ensures a + b == c + d <==> a == c && b == d
  {
    if a + b == c + d {
      assert |a| == |c|;
      assert a == (a + b)[..|a|] == (c + d)[..|c|] == c;
      assert b == (a + b)[|a|..] == (c + d)[|c|..] == d;
    }
  }

  /** A call for model m, still open, that has not changed the usage last seen. */
  predicate Opened(st: State, m: string, o: Out) {
    o.st.inModel && o.st.modelName == m && o.st.tokensIn == st.tokensIn && o.st.tokensOut == st.tokensOut
  }

  /** When two whole calls that start from one state leave the same state and trace. */
  lemma WholesAgreeIff(st: State, m: string, x: Out, m': string, y: Out, u: Option<Usage>)
    requires !st.inModel && Opened(st, m, x) && Opened(st, m', y)
    ensures Whole(StartModel(st, m), x, u) == Whole(StartModel(st, m'), y, u)
            <==> && m == m' && x.events == y.events && Clip(x.st.content) == Clip(y.st.content)
                 && x.st.(content := "") == y.st.(content := "")
  {
    var b, b' := StartModel(st, m), StartModel(st, m');
    var p, q := SetUsage(x.st, u), SetUsage(y.st, u);
    EqualParts(b.events + x.events, EndModel(p).events, b'.events + y.events, EndModel(q).events);
    StartThen(st, m, x.events, m', y.events);
    EndsAgreeIff(p, q);
    assert p.(content := "") == q.(content := "") <==> x.st.(content := "") == y.st.(content := "");
  }

  lemma StartThen(st: State, m: string, xs: seq<RunEvent>, m': string, ys: seq<RunEvent>)
    requires !st.inModel
    ensures StartModel(st, m).events + xs == StartModel(st, m').events + ys <==> m == m' && xs == ys
  {
    var a, c := StartModel(st, m).events + xs, StartModel(st, m').events + ys;
    assert a[0].body == ModelStart(m) && c[0].body == ModelStart(m');
    assert a[1..] == xs && c[1..] == ys;
  }

  lemma EndsAgreeIff(p: State, q: State)
    requires p.inModel && q.inModel
    ensures EndModel(p) == EndModel(q) <==> p.(content := "") == q.(content := "") && Clip(p.content) == Clip(q.content)
  {
    if EndModel(p) == EndModel(q) {
      assert EndModel(p).events[0].body == EndModel(q).events[0].body;
    }
  }

  /** What the live frames did to the calls, and what the stored response does, agree. */
  predicate SameCalls(st: State, deltas: seq<ToolCall>, tcs: seq<ToolCall>) {
    && DeltaIds(deltas) <= st.seenToolIDs + FinalIds(tcs)
    && SameStarts(st.toolNames,
                  Blank(NamedOf(deltas)) + StartedOf(tcs, st.seenToolIDs + DeltaIds(deltas)),
                  StartedOf(tcs, st.seenToolIDs))
  }

  /** The deltas of an open call, then the calls of its completion. */
  function LiveCalls(st: State, deltas: seq<ToolCall>, text: string, tcs: seq<ToolCall>): Out {
    var d := DeltaCalls(st, deltas);
    Then(d, FinalCalls(d.st.(content := text), tcs))
  }

  lemma LiveStarts(st: State, deltas: seq<ToolCall>, text: string, tcs: seq<ToolCall>)
    ensures var x := LiveCalls(st, deltas, text, tcs);
            && BareOut(x)
               == Started(Bare(st), Blank(NamedOf(deltas)) + StartedOf(tcs, st.seenToolIDs + DeltaIds(deltas)))
            && x.st.seenToolIDs == st.seenToolIDs + DeltaIds(deltas) + FinalIds(tcs)
  {
    var mid := DeltaCalls(st, deltas).st.(content := text);
    DeltasStart(st, deltas);
    DeltaCallsSeen(st, deltas);
    FinalsStart(mid, tcs);
    FinalCallsSeen(mid, tcs);
    StartedConcat(Bare(st), Blank(NamedOf(deltas)), StartedOf(tcs, mid.seenToolIDs));
  }

  lemma CallsAgreeIff(st: State, deltas: seq<ToolCall>, text: string, tcs: seq<ToolCall>, text': string)
    ensures var x, y := LiveCalls(st, deltas, text, tcs), FinalCalls(st.(content := text'), tcs);
            x.events == y.events && x.st.(content := "") == y.st.(content := "") <==> SameCalls(st, deltas, tcs)
  {
    var x, y := LiveCalls(st, deltas, text, tcs), FinalCalls(st.(content := text'), tcs);
    LiveStarts(st, deltas, text, tcs);
    FinalsStart(st.(content := text'), tcs);
    FinalCallsSeen(st.(content := text'), tcs);
    var a, b := Blank(NamedOf(deltas)) + StartedOf(tcs, st.seenToolIDs + DeltaIds(deltas)), StartedOf(tcs, st.seenToolIDs);
    SameStartsIff(Bare(st), a, b);
    assert x.st.(content := "") == y.st.(content := "")
           <==> Bare(x.st) == Bare(y.st) && x.st.seenToolIDs == y.st.seenToolIDs;
    assert x.st.seenToolIDs == y.st.seenToolIDs <==> DeltaIds(deltas) <= st.seenToolIDs + FinalIds(tcs);
  }

  /** Calls leave a call open, and its model and usage alone. */
  lemma {:induction false} CallsStayOpened(st: State, tcs: seq<ToolCall>)
    ensures var d, f := DeltaCalls(st, tcs).st, FinalCalls(st, tcs).st;
            (d.inModel, d.modelName, d.content) == (f.inModel, f.modelName, f.content)
            == (st.inModel, st.modelName, st.content)
  {
    if tcs != [] {
      CallsStayOpened(st, tcs[..|tcs| - 1]);
    }
  }

  lemma LiveOpened(st: State, m: string, deltas: seq<ToolCall>, text: string, tcs: seq<ToolCall>)
    requires !st.inModel
    ensures var begun := StartModel(st, m).st;
            var x := LiveCalls(begun, deltas, text, tcs);
            Opened(st, m, x) && x.st.content == text
  {
    var begun := StartModel(st, m).st;
    CallsStayOpened(begun, deltas);
    CallsKeepCosts(begun, deltas);
    var mid := DeltaCalls(begun, deltas).st.(content := text);
    CallsStayOpened(mid, tcs);
    CallsKeepCosts(mid, tcs);
  }

  /** A live call and the replay of what was stored of it. */
  lemma CallsCompared(st: State, m: string, deltas: seq<ToolCall>, text: string, tcs: seq<ToolCall>,
                      m': string, text': string, u: Option<Usage>)
    requires !st.inModel
    ensures Whole(StartModel(st, m), LiveCalls(StartModel(st, m).st, deltas, text, tcs), u) == Call(st, m', text', tcs, u)
            <==> m == m' && Clip(text) == Clip(text') && SameCalls(st, deltas, tcs)
  {
    var b, b' := StartModel(st, m), StartModel(st, m');
    var x, y := LiveCalls(b.st, deltas, text, tcs), FinalCalls(b'.st.(content := text'), tcs);
    LiveOpened(st, m, deltas, text, tcs);
    CallsStayOpened(b'.st.(content := text'), tcs);
    CallsKeepCosts(b'.st.(content := text'), tcs);
    WholesAgreeIff(st, m, x, m', y, u);
    CallsAgreeIff(b.st, deltas, text, tcs, text');
    assert Call(st, m', text', tcs, u) == Whole(b', y, u);
  }

  // ---- The ways a stream can end ----

  /** A chunk that ends its call, with one choice at most and no finished message. */
  predicate DoneChunk(r: Response) {
    r.done && StreamChunk(r.(done := false))
  }

  lemma LiveToCompletion(st: State, chunks: seq<Response>, last: Response)
    requires !st.inModel && st.content == ""
    requires chunks != [] && (forall r :: r in chunks ==> StreamChunk(r)) && FinalFrame(last)
    ensures var begun := StartModel(st, chunks[0].model);
            var x := LiveCalls(begun.st, StreamedCalls(chunks), DeltaText(chunks), last.choices[0].message.toolCalls);
            HandleAll(st, chunks + [last]) == Whole(begun, x, StreamUsage(chunks, last))
  {
    var all, tcs := chunks + [last], last.choices[0].message.toolCalls;
    assert all[..|all| - 1] == chunks && all[|all| - 1] == last;
    ChunksHandled(st, chunks);
    var begun := StartModel(st, chunks[0].model);
    var calls := DeltaCalls(begun.st, StreamedCalls(chunks));
    DeltaCallsIgnore(begun.st, StreamedCalls(chunks), None, "");
    var ready := calls.st.(content := DeltaText(chunks));
    FinalFrameEnds(ready, LastUsage(chunks), last);
    var more := FinalCalls(ready, tcs);
    ThenAssociates(begun.events, calls.events, more.events);
    ThenAssociates(begun.events + calls.events, more.events, EndModel(SetUsage(more.st, StreamUsage(chunks, last))).events);
  }

  lemma LiveToDoneChunk(st: State, chunks: seq<Response>, end: Response)
    requires !st.inModel && st.content == ""
    requires (forall r :: r in chunks ==> StreamChunk(r)) && DoneChunk(end)
    ensures var open := chunks + [end.(done := false)];
            var begun := StartModel(st, open[0].model);
            HandleAll(st, chunks + [end])
            == Whole(begun, LiveCalls(begun.st, StreamedCalls(open), DeltaText(open), []), LastUsage(open))
  {
    var all, open := chunks + [end], chunks + [end.(done := false)];
    assert all[..|all| - 1] == chunks == open[..|open| - 1];
    ChunksHandled(st, open);
    var begun := StartModel(st, open[0].model);
    var calls := DeltaCalls(begun.st, StreamedCalls(open));
    DoneIsOpenThenEnd(HandleAll(st, chunks).st, end);
    var o := HandleAll(st, open);
    ThenAssociates(HandleAll(st, chunks).events, Handle(HandleAll(st, chunks).st, end.(done := false)).events,
                   EndModel(o.st).events);
    assert HandleAll(st, all) == Then(o, EndModel(o.st));
    assert calls.events + [] == calls.events;
  }

  lemma DoneIsOpenThenEnd(st: State, end: Response)
    requires DoneChunk(end)
    ensures var o := Handle(st, end.(done := false));
            Handle(st, end) == Then(o, EndModel(o.st))
  {
  }

  lemma DoneChunkKept(chunks: seq<Response>, end: Response)
    requires (forall r :: r in chunks ==> StreamChunk(r)) && DoneChunk(end)
    ensures var open := chunks + [end.(done := false)];
            FinalOf(AddFrames(EMPTY, chunks + [end])) == Kept(FirstModel(open), DeltaText(open), [], LastUsage(open))
  {
    var all, open := chunks + [end], chunks + [end.(done := false)];
    assert all[..|all| - 1] == chunks == open[..|open| - 1];
    ChunksAggregated(open);
    assert AddFrames(EMPTY, all) == AddFrames(EMPTY, open);
  }

  /** A frame of a streamed model call. */
  predicate StreamFrame(r: Response) {
    StreamChunk(r) || DoneChunk(r) || FinalFrame(r)
  }

  /** Every delta piece is nameless, under no id or one that was announced before. */
  predicate NoNewCalls(st: State, deltas: seq<ToolCall>) {
    forall tc :: tc in deltas ==> tc.name == "" && (tc.id == "" || tc.id in st.seenToolIDs)
  }

  /** The chunks before the end of a stream, the frame that ends it opened again if it is a chunk. */
  function OpenPart(fs: seq<Response>): seq<Response>
    requires fs != []
  {
    var front, last := fs[..|fs| - 1], fs[|fs| - 1];
    if last.kind.Chunk? then front + [last.(done := false)] else front
  }

  /**
   * The streams whose stored response replays as they went: only the last frame
   * ends the call; the first model name is on the first frame; and either a done
   * chunk ends it and no delta announced a call, or a completion does that alone
   * or repeats no text the chunks lacked and starts, with the deltas, what it would
   * start without them.
   */
  predicate ReplaysAlike(st: State, fs: seq<Response>) {
    && fs != []
    && (forall i :: 0 <= i < |fs| - 1 ==> StreamChunk(fs[i]))
    && FirstModel(fs) == fs[0].model
    && var last, open := fs[|fs| - 1], OpenPart(fs);
       if FinalFrame(last) then
         && (open == [] || DeltaText(open) != "" || last.choices[0].message.content == "")
         && SameCalls(st, StreamedCalls(open), last.choices[0].message.toolCalls)
       else DoneChunk(last) && NoNewCalls(st, StreamedCalls(open))
  }

  lemma EndsInCompletionIff(st: State, chunks: seq<Response>, last: Response)
    requires !st.inModel && st.content == ""
    requires (forall r :: r in chunks ==> StreamChunk(r)) && FinalFrame(last)
    requires FinalOf(AddFrames(EMPTY, chunks + [last])).Some?
    ensures HandleAll(st, [FinalOf(AddFrames(EMPTY, chunks + [last])).value]) == HandleAll(st, chunks + [last])
            <==> && FirstModel(chunks + [last]) == (chunks + [last])[0].model
                 && (chunks == [] || DeltaText(chunks) != "" || last.choices[0].message.content == "")
                 && SameCalls(st, StreamedCalls(chunks), last.choices[0].message.toolCalls)
  {
    var fs, msg := chunks + [last], last.choices[0].message;
    var text := if DeltaText(chunks) != "" then DeltaText(chunks) else msg.content;
    StreamKept(chunks, last);
    CompletionIsCall(st, StoredResponse(FirstModel(fs), text, msg.toolCalls, StreamUsage(chunks, last)));
    if chunks == [] {
      AloneAlike(st, last);
    } else {
      LiveToCompletion(st, chunks, last);
      CallsCompared(st, chunks[0].model, StreamedCalls(chunks), DeltaText(chunks), msg.toolCalls,
                    FirstModel(fs), text, StreamUsage(chunks, last));
      ClipEmpty(msg.content);
    }
  }

  lemma AloneAlike(st: State, last: Response)
    requires !st.inModel && st.content == "" && FinalFrame(last)
    ensures HandleAll(st, [last]) == Call(st, last.model, last.choices[0].message.content,
                                          last.choices[0].message.toolCalls, last.usage)
    ensures FirstModel([last]) == last.model && [] + [last] == [last]
    ensures SameCalls(st, [], last.choices[0].message.toolCalls)
  {
    CompletionIsCall(st, last);
    assert [last][..0] == [];
    assert DeltaIds([]) == {} && st.seenToolIDs + {} == st.seenToolIDs;
    var tcs := last.choices[0].message.toolCalls;
    assert Blank(NamedOf([])) + StartedOf(tcs, st.seenToolIDs) == StartedOf(tcs, st.seenToolIDs);
  }

  lemma EndsInDoneChunkIff(st: State, chunks: seq<Response>, end: Response)
    requires !st.inModel && st.content == ""
    requires (forall r :: r in chunks ==> StreamChunk(r)) && DoneChunk(end)
    requires FinalOf(AddFrames(EMPTY, chunks + [end])).Some?
    ensures HandleAll(st, [FinalOf(AddFrames(EMPTY, chunks + [end])).value]) == HandleAll(st, chunks + [end])
            <==> && FirstModel(chunks + [end]) == (chunks + [end])[0].model
                 && NoNewCalls(st, StreamedCalls(chunks + [end.(done := false)]))
  {
    var fs, open := chunks + [end], chunks + [end.(done := false)];
    assert fs[..|fs| - 1] == chunks == open[..|open| - 1];
    DoneChunkKept(chunks, end);
    CompletionIsCall(st, StoredResponse(FirstModel(open), DeltaText(open), [], LastUsage(open)));
    LiveToDoneChunk(st, chunks, end);
    CallsCompared(st, open[0].model, StreamedCalls(open), DeltaText(open), [], FirstModel(open), DeltaText(open), LastUsage(open));
    NoCallsIff(st, StreamedCalls(open));
  }

  lemma NoCallsIff(st: State, deltas: seq<ToolCall>)
    ensures SameCalls(st, deltas, []) <==> NoNewCalls(st, deltas)
  {
    NamedNone(deltas);
    assert FinalIds([]) == {} && st.seenToolIDs + {} == st.seenToolIDs;
    var named := Blank(NamedOf(deltas));
    assert named + StartedOf([], st.seenToolIDs + DeltaIds(deltas)) == named;
    assert |named| == |NamedOf(deltas)|;
  }

  lemma {:induction false} NamedNone(tcs: seq<ToolCall>)
    ensures NamedOf(tcs) == [] <==> forall tc :: tc in tcs ==> tc.name == ""
  {
    if tcs != [] {
      NamedNone(tcs[..|tcs| - 1]);
      assert tcs == tcs[..|tcs| - 1] + [tcs[|tcs| - 1]];
    }
  }

  /** A stream that ends without an end leaves the call open, where its replay closes it. */
  lemma OpenStreamDiffers(st: State, fs: seq<Response>, r: Response)
    requires !st.inModel && st.content == "" && (forall x :: x in fs ==> StreamChunk(x)) && fs != []
    requires r.kind.Completion? && r.error.None? && |r.choices| == 1
    ensures HandleAll(st, [r]).st.inModel != HandleAll(st, fs).st.inModel
  {
    ChunksHandled(st, fs);
    DeltaCallsIgnore(StartModel(st, fs[0].model).st, StreamedCalls(fs), None, "");
    CompletionIsCall(st, r);
  }

  /** The frame belongs to a model call. */
  predicate OfModel(r: Response) {
    r.error.None? && (r.kind.Chunk? || r.kind.Completion?)
  }

  /** A model frame leaves at least one call begun since an idle state. */
  lemma {:induction false} CallsBegun(st: State, fs: seq<Response>)
    requires !st.inModel && exists r :: r in fs && OfModel(r)
    ensures HandleAll(st, fs).st.modelCalls > st.modelCalls
  {
    var front, last := fs[..|fs| - 1], fs[|fs| - 1];
    var o := HandleAll(st, front);
    RunTracks(st, front);
    HandleTracks(o.st, last);
    LedgerMeans(LedgerOf(o.st), Handle(o.st, last).events);
    StartsExceedEnds(false, o.events);
    assert fs == front + [last];
    if exists r :: r in front && OfModel(r) {
      CallsBegun(st, front);
    } else if !o.st.inModel {
      FrameBegins(o.st, last);
    }
  }

  lemma FrameBegins(st: State, r: Response)
    requires !st.inModel && OfModel(r)
    ensures HandleAll(st, [r]).st == Handle(st, r).st && Handle(st, r).st.modelCalls > st.modelCalls
  {
    assert [r][..0] == [];
    var es := Handle(st, r).events;
    HandleTracks(st, r);
    LedgerMeans(LedgerOf(st), es);
    assert es[0].body == ModelStart(r.model);
  }

  /** A model frame after one that ended a call begins another, and a replay begins only one. */
  lemma LaterFrameDiffers(st: State, a: seq<Response>, x: Response, b: seq<Response>, r: Response)
    requires !st.inModel && st.content == "" && CallEnds(x) && exists y :: y in b && OfModel(y)
    requires r.kind.Completion? && r.error.None? && |r.choices| == 1
    ensures HandleAll(st, [r]).st.modelCalls == st.modelCalls + 1 < HandleAll(st, a + [x] + b).st.modelCalls
  {
    var first := a + [x];
    assert first[..|first| - 1] == a && x in first && OfModel(x);
    CallsBegun(st, first);
    assert !HandleAll(st, first).st.inModel;
    CallsBegun(HandleAll(st, first).st, b);
    RunConcat(st, first, b);
    CompletionIsCall(st, r);
    CallsStayOpened(StartModel(st, r.model).st.(content := r.choices[0].message.content), r.choices[0].message.toolCalls);
    CallBeginsOne(st, r);
  }

  lemma CallBeginsOne(st: State, r: Response)
    requires !st.inModel && st.content == "" && r.kind.Completion? && r.error.None? && |r.choices| == 1
    ensures HandleAll(st, [r]).st.modelCalls == st.modelCalls + 1
  {
    CompletionIsCall(st, r);
    FinalsStart(StartModel(st, r.model).st.(content := r.choices[0].message.content), r.choices[0].message.toolCalls);
  }

  /**
   * The exact condition, for every stream of one-choice frames of which something
   * is stored: replaying what is stored leaves the live events and state.
   */
  lemma {:induction false} StreamReplaysIff(st: State, fs: seq<Response>)
    requires !st.inModel && st.content == "" && fs != [] && forall r :: r in fs ==> StreamFrame(r)
    requires FinalOf(AddFrames(EMPTY, fs)).Some?
    ensures HandleAll(st, [FinalOf(AddFrames(EMPTY, fs)).value]) == HandleAll(st, fs) <==> ReplaysAlike(st, fs)
  {
    var front, last := fs[..|fs| - 1], fs[|fs| - 1];
    assert fs == front + [last] && last in fs;
    if i :| 0 <= i < |front| && !StreamChunk(front[i]) {
      assert front[i] == fs[i] && fs[i] in fs;
      EarlyEndDiffers(st, fs, i, FinalOf(AddFrames(EMPTY, fs)).value);
    } else {
      assert forall x :: x in front ==> StreamChunk(x);
      if FinalFrame(last) {
        EndsInCompletionIff(st, front, last);
        AlikeCompletion(st, front, last);
      } else if DoneChunk(last) {
        EndsInDoneChunkIff(st, front, last);
        AlikeDoneChunk(st, front, last);
      } else {
        OpenStreamDiffers(st, fs, FinalOf(AddFrames(EMPTY, fs)).value);
      }
    }
  }

  lemma AlikeCompletion(st: State, front: seq<Response>, last: Response)
    requires (forall x :: x in front ==> StreamChunk(x)) && FinalFrame(last)
    ensures ReplaysAlike(st, front + [last])
            <==> && FirstModel(front + [last]) == (front + [last])[0].model
                 && (front == [] || DeltaText(front) != "" || last.choices[0].message.content == "")
                 && SameCalls(st, StreamedCalls(front), last.choices[0].message.toolCalls)
  {
    assert OpenPart(front + [last]) == front;
  }

  lemma AlikeDoneChunk(st: State, front: seq<Response>, last: Response)
    requires (forall x :: x in front ==> StreamChunk(x)) && DoneChunk(last)
    ensures ReplaysAlike(st, front + [last])
            <==> && FirstModel(front + [last]) == (front + [last])[0].model
                 && NoNewCalls(st, StreamedCalls(front + [last.(done := false)]))
  {
    assert OpenPart(front + [last]) == front + [last.(done := false)];
  }

  lemma EarlyEndDiffers(st: State, fs: seq<Response>, i: nat, r: Response)
    requires !st.inModel && st.content == "" && i < |fs| - 1 && CallEnds(fs[i]) && StreamFrame(fs[|fs| - 1])
    requires r.kind.Completion? && r.error.None? && |r.choices| == 1
    ensures HandleAll(st, [r]) != HandleAll(st, fs)
  {
    var a, x, b := fs[..i], fs[i], fs[i + 1..];
    assert fs[|fs| - 1] in b;
    assert fs == a + [x] + b;
    LaterFrameDiffers(st, a, x, b, r);
  }

  // ---- Streams that announce their calls ----

  predicate SameButArgs(a: seq<ToolCall>, b: seq<ToolCall>) {
    |a| == |b| && forall i :: 0 <= i < |a| ==> a[i].id == b[i].id && a[i].name == b[i].name
  }

  function Ids(tcs: seq<ToolCall>): set<string> {
    set tc | tc in tcs :: tc.id
  }

  /** Named calls under ids of their own, none of which was seen before. */
  predicate Fresh(tcs: seq<ToolCall>, seen: set<string>) {
    && (forall i :: 0 <= i < |tcs| ==> tcs[i].name != "" && tcs[i].id != "" && tcs[i].id !in seen)
    && forall i, j :: 0 <= i < j < |tcs| ==> tcs[i].id != tcs[j].id
  }

  /** The deltas announce tcs, in order; pieces without a name have no id or that of one of tcs. */
  predicate Announce(deltas: seq<ToolCall>, tcs: seq<ToolCall>) {
    && SameButArgs(tcs, NamedOf(deltas))
    && forall tc :: tc in deltas ==> tc.id == "" || tc.id in Ids(tcs)
  }

  lemma {:induction false} AllFreshStart(tcs: seq<ToolCall>, seen: set<string>)
    requires Fresh(tcs, seen)
    ensures StartedOf(tcs, seen) == tcs
  {
    if tcs != [] {
      FrontIsFresh(tcs, seen);
      LastIsFresh(tcs, seen);
      AllFreshStart(tcs[..|tcs| - 1], seen);
      LastStarts(tcs, seen);
    }
  }

  lemma LastStarts(tcs: seq<ToolCall>, seen: set<string>)
    requires tcs != [] && !Skipped(tcs[|tcs| - 1], seen + FinalIds(tcs[..|tcs| - 1]))
    requires StartedOf(tcs[..|tcs| - 1], seen) == tcs[..|tcs| - 1]
    ensures StartedOf(tcs, seen) == tcs
  {
    assert tcs == tcs[..|tcs| - 1] + [tcs[|tcs| - 1]];
  }

  lemma FrontIsFresh(tcs: seq<ToolCall>, seen: set<string>)
    requires tcs != [] && Fresh(tcs, seen)
    ensures Fresh(tcs[..|tcs| - 1], seen)
  {
  }

  lemma LastIsFresh(tcs: seq<ToolCall>, seen: set<string>)
    requires tcs != [] && Fresh(tcs, seen)
    ensures !Skipped(tcs[|tcs| - 1], seen + FinalIds(tcs[..|tcs| - 1]))
  {
    var n := |tcs| - 1;
    forall tc | tc in tcs[..n] ensures tc.id != tcs[n].id {
      var i :| 0 <= i < n && tcs[i] == tc;
    }
  }

  lemma {:induction false} NoneKnownStarts(tcs: seq<ToolCall>, seen: set<string>)
    requires forall tc :: tc in tcs ==> tc.id != "" && tc.id in seen
    ensures StartedOf(tcs, seen) == []
  {
    if tcs != [] {
      assert tcs == tcs[..|tcs| - 1] + [tcs[|tcs| - 1]];
      NoneKnownStarts(tcs[..|tcs| - 1], seen);
    }
  }

  lemma {:induction false} NamedAreThere(tcs: seq<ToolCall>, i: nat)
    requires i < |NamedOf(tcs)|
    ensures NamedOf(tcs)[i] in tcs
  {
    var front := tcs[..|tcs| - 1];
    assert tcs == front + [tcs[|tcs| - 1]];
    if i < |NamedOf(front)| {
      NamedAreThere(front, i);
    }
  }

  lemma {:induction false} SameNamesAfter(names: map<string, string>, a: seq<ToolCall>, b: seq<ToolCall>)
    requires SameButArgs(a, b)
    ensures NamesAfter(names, a) == NamesAfter(names, b)
  {
    if a != [] {
      SameNamesAfter(names, a[..|a| - 1], b[..|b| - 1]);
    }
  }

  /** Calls the deltas announced start the same once their arguments are empty. */
  lemma AnnouncedSameIff(st: State, deltas: seq<ToolCall>, tcs: seq<ToolCall>)
    requires Announce(deltas, tcs) && Fresh(tcs, st.seenToolIDs)
    ensures SameCalls(st, deltas, tcs) <==> forall tc :: tc in tcs ==> tc.args == ""
  {
    AnnouncedIds(deltas, tcs);
    AllFreshStart(tcs, st.seenToolIDs);
    NoneKnownStarts(tcs, st.seenToolIDs + DeltaIds(deltas));
    BlankSameIff(st.toolNames, NamedOf(deltas), tcs);
    assert Blank(NamedOf(deltas)) + [] == Blank(NamedOf(deltas));
  }

  lemma AnnouncedIds(deltas: seq<ToolCall>, tcs: seq<ToolCall>)
    requires Announce(deltas, tcs) && forall i :: 0 <= i < |tcs| ==> tcs[i].name != "" && tcs[i].id != ""
    ensures DeltaIds(deltas) <= FinalIds(tcs) && forall tc :: tc in tcs ==> tc.id in DeltaIds(deltas)
  {
    forall tc | tc in tcs ensures tc.id in DeltaIds(deltas) {
      var i :| 0 <= i < |tcs| && tcs[i] == tc;
      NamedAreThere(deltas, i);
    }
  }

  lemma BlankSameIff(names: map<string, string>, named: seq<ToolCall>, tcs: seq<ToolCall>)
    requires SameButArgs(tcs, named)
    ensures SameStarts(names, Blank(named), tcs) <==> forall tc :: tc in tcs ==> tc.args == ""
  {
    SameNamesAfter(names, Blank(named), tcs);
  }

  /**
   * Streamed tool calls as providers send them: chunks whose deltas announce new
   * calls, under ids of their own, end in a completion that repeats the streamed
   * text and those calls. The stored response, replayed, leaves the live events
   * and state if and only if no call has arguments.
   */
  lemma {:induction false} StreamedCallsReplayIff(st: State, chunks: seq<Response>, last: Response)
    requires !st.inModel && st.content == ""
    requires chunks != [] && forall r :: r in chunks ==> StreamChunk(r)
    requires FinalFrame(last) && last.choices[0].message.content == DeltaText(chunks)
    requires Announce(StreamedCalls(chunks), last.choices[0].message.toolCalls)
    requires Fresh(last.choices[0].message.toolCalls, st.seenToolIDs)
    requires chunks[0].model != ""
    ensures var stored := FinalOf(AddFrames(EMPTY, chunks + [last]));
            && stored.Some?
            && (HandleAll(st, [stored.value]) == HandleAll(st, chunks + [last])
                <==> forall tc :: tc in last.choices[0].message.toolCalls ==> tc.args == "")
  {
    assert (chunks + [last])[0] == chunks[0];
    StreamStored(chunks, last);
    FirstModelIsFirst(chunks + [last]);
    EndsInCompletionIff(st, chunks, last);
    AnnouncedSameIff(st, StreamedCalls(chunks), last.choices[0].message.toolCalls);
  }

  /** A named call streamed before a done chunk is not stored: its replay starts no tool, with arguments or without. */
  lemma DroppedCallDiffers(call: ToolCall, model: string)
    requires call.name != "" && model != ""
    ensures var fs := [CallChunk(call, model), Response(Chunk, model, [], None, true, None)];
            var stored := FinalOf(AddFrames(EMPTY, fs));
            stored.Some? && HandleAll(INITIAL, [stored.value]) != HandleAll(INITIAL, fs)
  {
    var first, end := CallChunk(call, model), Response(Chunk, model, [], None, true, None);
    var open := [first] + [end.(done := false)];
    assert [first, end] == [first] + [end];
    assert open[..1] == [first] && [first][..0] == [];
    DoneChunkKept([first], end);
    FirstModelIsFirst(open);
    EndsInDoneChunkIff(INITIAL, [first], end);
    assert StreamedCalls(open) == StreamedCalls([first]) + [] && StreamedCalls([first]) == [] + [call];
    assert call in StreamedCalls(open);
  }
}
